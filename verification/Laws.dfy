/** Laws of a run, in terms of the calls it makes: what a step, a block, a branch, a cut and a saved
    position hand to user code, and what they make of its results. */
module Laws {
  import opened Wrappers
  import opened NodeIds
  import opened FlowModel
  import opened Engine
  import opened Reference
  import opened Progress

  // ----- one call -----

  /** A call yields its result, leaves in every scope the payload it chose, only sets signals, and is
      logged with its input. */
  lemma CallLeaves(u: User, callee: Callee, input: Inputs, w: World)
    ensures var (v, d) := Invoke(u, callee, input, w);
      var effect := u.call(callee, input, w.scopes);
      && v == effect.result && |d.scopes| == |w.scopes|
      && (forall i | 0 <= i < |w.scopes| :: d.scopes[i] == effect.payload(i))
      && d.signals == w.signals + effect.signals
      && d.log == w.log + [Event(callee, input)]
  {}

  // ----- regions -----

  /** A flow adds to what cuts it exactly its own shortcut's signal; a region that was left cuts
      nothing. */
  lemma RegionCuts(f: Flow, regions: seq<Region>, signals: set<string>)
    ensures FastForward(regions + RegionOf(f), signals) <==>
      FastForward(regions, signals) || (f.shortcut.Some? && f.shortcut.value.signal in signals)
    ensures !FastForward([], signals)
    ensures forall r: Region :: FastForward([r], signals) <==> !r.left && r.signal in signals
  {
    var own := RegionOf(f);
    if f.shortcut.Some? {
      assert own[0] == Region(f.shortcut.value.signal, f.shortcut.value.drain, false);
      assert own[0] in regions + own;
    }
    if FastForward(regions, signals) {
      var r :| r in regions && !r.left && r.signal in signals;
      assert r in regions + own;
    }
    forall r: Region ensures FastForward([r], signals) <==> !r.left && r.signal in signals {
      assert [r][0] == r;
    }
  }

  // ----- chains -----

  lemma EmptyFlowFails(f: Flow, e: Env, regions: seq<Region>, input: Inputs, w: World)
    requires f.nodes == []
    ensures EvalFlow(f, e, regions, input, w) == Val(Failed(EmptyFlow), w)
  {}

  /** The first step of a chain is called with what the flow was called with, arguments and keywords. */
  lemma FirstStepGetsInput(f: Flow, e: Env, regions: seq<Region>, input: Inputs, w: World, verb: nat)
    requires f.nodes != [] && f.nodes[0].target == Step(verb) && !FastForward(regions + RegionOf(f), w.signals)
    ensures var (x, d) := Invoke(e.u, Verb(verb), input, w);
      EvalFlow(f, e, regions, input, w) == EvalChain(f, e, regions + RegionOf(f), input, 1, Some(x), d)
  {
    var inner := regions + RegionOf(f);
    var (x, d) := Invoke(e.u, Verb(verb), input, w);
    assert Feed(e, 0, f.nodes[0], PassedThrough(e.u, None, input), input, w) == (input, w);
    assert EvalNode(f.nodes[0], e, inner, input, w) == Val(Done(x), d);
    assert EvalChain(f, e, inner, input, 0, None, w) == EvalChain(f, e, inner, input, 1, Some(x), d);
  }

  /** A later step is called with the result before it alone. */
  lemma LaterStepGetsResult(f: Flow, e: Env, regions: seq<Region>, input: Inputs, index: nat, prev: Value, w: World, verb: nat)
    requires 0 < index < |f.nodes| && f.nodes[index].target == Step(verb) && !FastForward(regions, w.signals)
    requires f.nodes[index].project.None?
    ensures var (x, d) := Invoke(e.u, Verb(verb), Inputs([prev], map[]), w);
      EvalChain(f, e, regions, input, index, Some(prev), w) == EvalChain(f, e, regions, input, index + 1, Some(x), d)
  {}

  /** One with a project= is called with what that makes of the result. */
  lemma ProjectedStepGetsProjection(f: Flow, e: Env, regions: seq<Region>, input: Inputs, index: nat, prev: Value, w: World, verb: nat, p: nat)
    requires 0 < index < |f.nodes| && f.nodes[index].target == Step(verb) && !FastForward(regions, w.signals)
    requires f.nodes[index].project == Some(p)
    ensures var asked := w.(log := w.log + [Event(Project(p), Inputs([prev], map[]))]);
      var (x, d) := Invoke(e.u, Verb(verb), Inputs([e.u.project(p, prev)], map[]), asked);
      EvalChain(f, e, regions, input, index, Some(prev), w) == EvalChain(f, e, regions, input, index + 1, Some(x), d)
  {
    var (inputs, w1) := Feed(e, index, f.nodes[index], prev, input, w);
    assert inputs == Inputs([e.u.project(p, prev)], map[]);
    assert EvalNode(f.nodes[index], e, regions, inputs, w1) ==
      Val(Done(Invoke(e.u, Verb(verb), inputs, w1).0), Invoke(e.u, Verb(verb), inputs, w1).1);
  }

  // ----- blocks -----

  /** A block with a scope of its own: the projection of the parent's payload opens it, the body works
      on it, and when the body completed the merge gets the parent's payload and then the scope's. */
  lemma ScopedCall(n: Node, e: Env, regions: seq<Region>, inputs: Inputs, w: World, body: Flow, p: nat, m: nat)
    requires n.target == Call(body, Some(Scope(p, Some(m)))) && w.scopes != []
    ensures var parent := w.scopes[|w.scopes| - 1];
      var (child, w1) := Invoke(e.u, OpenScope(p), Inputs([parent], map[]), w);
      var r := EvalFlow(body, e, regions, inputs, w1.(scopes := w1.scopes + [child]));
      var top := |r.w.scopes| - 1;
      top == |w.scopes| &&
      var w2 := if r.out.Done? then Invoke(e.u, Merge(m), Inputs([r.w.scopes[top - 1], r.w.scopes[top]], map[]), r.w).1 else r.w;
      EvalNode(n, e, regions, inputs, w) == Val(r.out, w2.(scopes := w2.scopes[..top]))
  {}

  /** Without a merge the scope is dropped. */
  lemma UnmergedCall(n: Node, e: Env, regions: seq<Region>, inputs: Inputs, w: World, body: Flow, p: nat)
    requires n.target == Call(body, Some(Scope(p, None))) && w.scopes != []
    ensures var (child, w1) := Invoke(e.u, OpenScope(p), Inputs([w.scopes[|w.scopes| - 1]], map[]), w);
      var r := EvalFlow(body, e, regions, inputs, w1.(scopes := w1.scopes + [child]));
      EvalNode(n, e, regions, inputs, w) == Val(r.out, r.w.(scopes := r.w.scopes[..|w.scopes|]))
  {}

  /** Without a scope of its own the body works on its parent's. */
  lemma SharedCall(n: Node, e: Env, regions: seq<Region>, inputs: Inputs, w: World, body: Flow)
    requires n.target == Call(body, None)
    ensures EvalNode(n, e, regions, inputs, w) == EvalFlow(body, e, regions, inputs, w)
  {}

  /** A branch asks when on its first positional, whatever comes with it, and hands that value alone to
      the arm; without an arm it is the result. */
  lemma BranchAsksOnce(n: Node, e: Env, regions: seq<Region>, v: Value, more: seq<Value>, kwargs: map<string, Value>, w: World)
    requires n.target.Branch?
    ensures var t := n.target;
      var (x, d) := Invoke(e.u, When(t.when), Inputs([v], map[]), w);
      EvalNode(n, e, regions, Inputs([v] + more, kwargs), w) ==
        if e.u.truthy(x) then EvalFlow(t.thenFlow, e, regions, Inputs([v], map[]), d)
        else if t.elseFlow.Some? then EvalFlow(t.elseFlow.value, e, regions, Inputs([v], map[]), d)
        else Val(Done(v), d)
  {
    assert ([v] + more)[0] == v;
  }

  /** A control-flow step called with no positional works on none. */
  lemma BranchOnNothing(n: Node, e: Env, regions: seq<Region>, kwargs: map<string, Value>, w: World)
    requires n.target.Branch?
    ensures EvalNode(n, e, regions, Inputs([], kwargs), w) == EvalNode(n, e, regions, Inputs([e.u.none], kwargs), w)
  {}

  /** A pass gets the carried value; until is asked once on its result, which either is the iterate's or
      is carried into the next pass. A pass that did not complete ends the iterate as it ended. */
  lemma OnePass(t: Target, e: Env, regions: seq<Region>, pass: nat, carry: Value, w: World)
    requires t.Iterate? && pass < e.bound && !FastForward(regions, w.signals)
    requires t.maxIters.Some? ==> pass < t.maxIters.value
    ensures var r := EvalFlow(t.body, e, regions, Inputs([carry], map[]), w);
      EvalLoop(t, e, regions, pass, carry, w) ==
        if !r.out.Done? then r
        else if t.until.None? then EvalLoop(t, e, regions, pass + 1, r.out.value, r.w)
        else
          var (x, d) := Invoke(e.u, Until(t.until.value), Inputs([r.out.value], map[]), r.w);
          if e.u.truthy(x) then Val(Done(r.out.value), d) else EvalLoop(t, e, regions, pass + 1, r.out.value, d)
  {}

  /** No pass starts past the bound, nor in a region whose signal is set: the carried value is the
      iterate's. */
  lemma NoMorePasses(t: Target, e: Env, regions: seq<Region>, pass: nat, carry: Value, w: World)
    requires t.Iterate? && (FastForward(regions, w.signals) || (t.maxIters.Some? && pass >= t.maxIters.value))
    ensures EvalLoop(t, e, regions, pass, carry, w) == Val(Done(carry), w)
  {}

  /** An iterate's scope is opened once, around all its passes, and merged once when they end. */
  lemma ScopedIterate(n: Node, e: Env, regions: seq<Region>, v: Value, w: World, p: nat, m: nat)
    requires n.target.Iterate? && n.target.scope == Some(Scope(p, Some(m))) && w.scopes != []
    ensures var (child, w1) := Invoke(e.u, OpenScope(p), Inputs([w.scopes[|w.scopes| - 1]], map[]), w);
      var r := EvalLoop(n.target, e, regions, 0, v, w1.(scopes := w1.scopes + [child]));
      var top := |w.scopes|;
      && |r.w.scopes| == top + 1
      && var w2 := if r.out.Done? then Invoke(e.u, Merge(m), Inputs([r.w.scopes[top - 1], r.w.scopes[top]], map[]), r.w).1 else r.w;
         EvalNode(n, e, regions, Inputs([v], map[]), w) == Val(r.out, w2.(scopes := w2.scopes[..top]))
  {}

  // ----- cuts -----

  ghost predicate NoConclude(f: Flow, from: nat, stop: nat)
    requires stop <= |f.nodes|
  {
    forall i: nat | from <= i < stop :: !f.nodes[i].conclude
  }

  lemma {:induction false} SkipsTo(f: Flow, e: Env, regions: seq<Region>, input: Inputs, index: nat, stop: nat, last: Option<Value>, w: World)
    requires index <= stop <= |f.nodes| && NoConclude(f, index, stop) && FastForward(regions, w.signals)
    ensures EvalChain(f, e, regions, input, index, last, w) == EvalChain(f, e, regions, input, stop, last, w)
    decreases |f.nodes| - index
  {
    if index < stop {
      SkipsTo(f, e, regions, input, index + 1, stop, last, w);
    }
  }

  /** A flow cut from its start, none of whose steps is conclude, makes no call and ends with the one
      positional value it was called with: with nothing when it was called with none, with several or
      with keywords. */
  lemma CutFlowEndsWithInput(f: Flow, e: Env, regions: seq<Region>, input: Inputs, w: World)
    requires f.nodes != [] && NoConclude(f, 0, |f.nodes|) && FastForward(regions + RegionOf(f), w.signals)
    ensures EvalFlow(f, e, regions, input, w) ==
      Val(Done(if |input.args| == 1 && input.kwargs == map[] then input.args[0] else e.u.none), w)
  {
    SkipsTo(f, e, regions + RegionOf(f), input, 0, |f.nodes|, None, w);
  }

  /** Cut after a step completed, it ends with that step's result. */
  lemma CutChainEndsWithLast(f: Flow, e: Env, regions: seq<Region>, input: Inputs, index: nat, last: Value, w: World)
    requires index <= |f.nodes| && NoConclude(f, index, |f.nodes|) && FastForward(regions, w.signals)
    ensures EvalChain(f, e, regions, input, index, Some(last), w) == Val(Done(last), w)
  {
    SkipsTo(f, e, regions, input, index, |f.nodes|, Some(last), w);
  }

  /** The first conclude step of a flow cut from its start is the next call made: as the first step with
      what the flow was called with, else with what the flow would have ended with. */
  lemma FirstConcludeGetsInput(f: Flow, e: Env, regions: seq<Region>, input: Inputs, j: nat, w: World, verb: nat)
    requires j < |f.nodes| && NoConclude(f, 0, j) && f.nodes[j].conclude
    requires f.nodes[j].target == Step(verb) && f.nodes[j].project.None?
    requires FastForward(regions + RegionOf(f), w.signals)
    ensures var given := if j == 0 then input
                         else Inputs([if |input.args| == 1 && input.kwargs == map[] then input.args[0] else e.u.none], map[]);
      var (x, d) := Invoke(e.u, Verb(verb), given, w);
      EvalFlow(f, e, regions, input, w) == EvalChain(f, e, regions + RegionOf(f), input, j + 1, Some(x), d)
  {
    SkipsTo(f, e, regions + RegionOf(f), input, 0, j, None, w);
  }

  // ----- saved positions -----

  // What a checkout's configuration is without an entry, and with one.

  ghost function NoChain(c: Cfg, q: Path): Cfg { Cfg(Saved(c.s.chain - {q}, c.s.iter, c.s.arm, c.s.scope), c.w, c.h) }

  ghost function NoIter(c: Cfg, q: Path): Cfg { Cfg(Saved(c.s.chain, c.s.iter - {q}, c.s.arm, c.s.scope), c.w, c.h) }

  ghost function NoArm(c: Cfg, q: Path): Cfg { Cfg(Saved(c.s.chain, c.s.iter, c.s.arm - {q}, c.s.scope), c.w, c.h) }

  ghost function WithIter(c: Cfg, q: Path, cursor: IterCursor): Cfg {
    Cfg(Saved(c.s.chain, c.s.iter[q := cursor], c.s.arm, c.s.scope), c.w, c.h)
  }

  ghost function WithArm(c: Cfg, q: Path, arm: bool): Cfg {
    Cfg(Saved(c.s.chain, c.s.iter, c.s.arm[q := arm], c.s.scope), c.w, c.h)
  }

  /** How an iterate without a scope ends from its loop: it is done, or its position stays saved. */
  ghost function EndedAt(q: Path, l: LoopRes): Res {
    if l.out.Done? then Res(l.out, l.c) else Res(l.out, WithIter(l.c, q, IterCursor(l.pass, l.carry, Some(false))))
  }

  /** A chain whose saved step is gone fails before it calls anything. */
  lemma LostStepFails(f: Flow, e: Env, context: Context, path: Path, regions: seq<Region>, input: Inputs, c: Cfg)
    requires f.nodes != [] && path in c.s.chain && c.s.chain[path].step !in Ids(context, Keys(f))
    ensures var r := RunFlow(f, e, context, path, regions, input, c);
      r.out == Failed(LostStep(path)) && r.c == NoChain(c, path)
  {}

  /** A chain saved at a step that had started runs that step again with the input it had, also in a
      region whose signal is set. */
  lemma StartedStepRunsAgain(f: Flow, e: Env, context: Context, path: Path, regions: seq<Region>, input: Inputs, c: Cfg,
                             i: nat, inputs: Inputs)
    requires i < |f.nodes| && path in c.s.chain && c.s.chain[path] == Running(IdAt(context, Keys(f), i), inputs)
    ensures RunFlow(f, e, context, path, regions, input, c) ==
      WalkStep(f, Frame(e, context, path, regions + RegionOf(f), input), i, inputs, NoChain(c, path))
  {
    IndexOfOwn(context, Keys(f), i);
  }

  /** One saved before a step that had not started goes on there: under a cut it passes over the step
      unless that is conclude; else the step gets the input that was saved, or, when that was deferred
      and nothing is cut any more, the result before it. */
  lemma UnstartedStepRuns(f: Flow, e: Env, context: Context, path: Path, regions: seq<Region>, input: Inputs, c: Cfg,
                          i: nat, inputs: Inputs, prev: Value, deferred: bool)
    requires 0 < i < |f.nodes| && f.nodes[i].project.None? && path in c.s.chain
    requires c.s.chain[path] == Pending(IdAt(context, Keys(f), i), inputs, prev, deferred)
    ensures var k := Frame(e, context, path, regions + RegionOf(f), input);
      var d := NoChain(c, path);
      var cut := FastForward(k.regions, c.w.signals);
      RunFlow(f, e, context, path, regions, input, c) ==
        if cut && !f.nodes[i].conclude then Walk(f, k, None, i + 1, Some(prev), d)
        else WalkStep(f, k, i, if deferred && !cut then Inputs([prev], map[]) else inputs, d)
  {
    IndexOfOwn(context, Keys(f), i);
  }

  /** The calls that open and merge a block's scope. */
  ghost predicate OnlyScopes(a: World, b: World) {
    Extends(a, b) && forall i | |a.log| <= i < |b.log| :: b.log[i].callee.OpenScope? || b.log[i].callee.Merge?
  }

  /** An iterate saved with the verdict that it is done is done: it yields the value it had carried,
      runs no pass and asks nothing. */
  lemma DoneStaysDone(t: Target, id: NodeId, k: Frame, v: Value, c: Cfg)
    requires t.Iterate? && k.path + [N(id)] in c.s.iter && c.s.iter[k.path + [N(id)]].done == Some(true)
    ensures var q := k.path + [N(id)];
      var r := RunIterate(t, id, k, v, c);
      && r.out == Done(c.s.iter[q].carry) && OnlyScopes(c.w, r.c.w)
      && r.c.s == Saved(c.s.chain, c.s.iter - {q}, c.s.arm, if t.scope.Some? then c.s.scope - {q} else c.s.scope)
      && |r.c.w.log| == |c.w.log| + (if t.scope.Some? && q !in c.s.scope then 1 else 0)
           + (if t.scope.Some? && t.scope.value.merge.Some? then 1 else 0)
  {}

  /** One saved before until answered is asked, once, on the value it carried, before any pass: it is
      done if until holds, else goes on with the pass it was at. */
  lemma UnansweredIsAsked(t: Target, id: NodeId, k: Frame, v: Value, c: Cfg, u: nat)
    requires t.Iterate? && t.until == Some(u) && t.scope.None?
    requires k.path + [N(id)] in c.s.iter && c.s.iter[k.path + [N(id)]].done.None?
    ensures var q := k.path + [N(id)];
      var at := c.s.iter[q];
      var asked := Invoke(k.e.u, Until(u), Inputs([at.carry], map[]), c.w);
      var d := Cfg(NoIter(c, q).s, asked.1, c.h.Tick());
      RunIterate(t, id, k, v, c) ==
        if k.e.u.truthy(asked.0) then Res(Done(at.carry), d) else EndedAt(q, Loop(t, id, k, at.pass, at.carry, d))
  {}

  /** One saved with the verdict that it is not done goes on with its pass, and until is not asked
      again first. */
  lemma NotDoneGoesOn(t: Target, id: NodeId, k: Frame, v: Value, c: Cfg)
    requires t.Iterate? && t.scope.None?
    requires k.path + [N(id)] in c.s.iter && c.s.iter[k.path + [N(id)]].done == Some(false)
    ensures var q := k.path + [N(id)];
      var at := c.s.iter[q];
      RunIterate(t, id, k, v, c) == EndedAt(q, Loop(t, id, k, at.pass, at.carry, NoIter(c, q)))
  {}

  /** The iterate as a checkpoint at q would have it: its position, and its scope when it has one. */
  ghost function SavedAt(t: Target, q: Path, cursor: IterCursor, c: Cfg): Cfg
    requires t.Iterate? && c.w.scopes != []
  {
    var entries := c.s.(iter := c.s.iter[q := cursor]);
    if t.scope.None? then c.(s := entries)
    else
      var top := |c.w.scopes| - 1;
      Cfg(entries.(scope := entries.scope[q := c.w.scopes[top]]), c.w.(scopes := c.w.scopes[..top]), c.h)
  }

  /** A checkpoint of an iterate between two passes, taken after until was asked on a pass's result or
      before: resumed from it, whatever it is called with, the iterate goes on exactly as it does. */
  lemma {:induction false} PassBoundaryResumes(t: Target, id: NodeId, k: Frame, pass: nat, carry: Value, v: Value, c: Cfg, other: Value)
    requires t.Iterate? && pass < k.e.bound && c.w.scopes != []
    requires var q := k.path + [N(id)]; q !in c.s.iter && q !in c.s.scope
    ensures var q := k.path + [N(id)];
      var (done, asked) := UntilHolds(k.e, t.until, v, c);
      var goesOn := AfterPasses(k.e, t.scope, q, AfterPass(t, id, k, pass, carry, Res(Done(v), c)));
      && RunIterate(t, id, k, other, SavedAt(t, q, IterCursor(pass + 1, v, Some(done)), asked)) == goesOn
      && RunIterate(t, id, k, other, SavedAt(t, q, IterCursor(pass + 1, v, None), c)) == goesOn
  {
    var q := k.path + [N(id)];
    var (done, asked) := UntilHolds(k.e, t.until, v, c);
    TakesBack(t, k.e, q, IterCursor(pass + 1, v, Some(done)), asked, other);
    TakesBack(t, k.e, q, IterCursor(pass + 1, v, None), c, other);
  }

  lemma TakesBack(t: Target, e: Env, q: Path, cursor: IterCursor, c: Cfg, other: Value)
    requires t.Iterate? && c.w.scopes != [] && q !in c.s.iter && q !in c.s.scope
    ensures var (at, c1) := TakePosition(q, other, SavedAt(t, q, cursor, c));
      at == cursor && Enter(e, t.scope, q, c1) == c
  {
    var (at, c1) := TakePosition(q, other, SavedAt(t, q, cursor, c));
    assert c.s.iter[q := cursor] - {q} == c.s.iter;
    if t.scope.Some? {
      var top := |c.w.scopes| - 1;
      assert c.w.scopes[..top] + [c.w.scopes[top]] == c.w.scopes;
      assert c.s.scope[q := c.w.scopes[top]] - {q} == c.s.scope;
    }
  }

  /** A branch saved in an arm goes on in that arm, and when is not asked. */
  lemma SavedArmIsTaken(t: Target, id: NodeId, k: Frame, v: Value, c: Cfg)
    requires t.Branch? && k.path + [N(id)] in c.s.arm
    ensures var q := k.path + [N(id)];
      var arm := c.s.arm[q];
      var r := ArmRun(t, id, k, v, arm, NoArm(c, q));
      RunBranch(t, id, k, v, c) == if r.out.Halted? then Res(r.out, WithArm(r.c, q, arm)) else r
  {}

  /** An arm runs at its branch's path, each in a chain context of its own, on the branch's value; a
      missing one yields it. */
  ghost function ArmRun(t: Target, id: NodeId, k: Frame, v: Value, arm: bool, c: Cfg): Res
    requires t.Branch?
  {
    if arm then RunFlow(t.thenFlow, k.e, Descend(id, "then"), k.path + [N(id)], k.regions, Inputs([v], map[]), c)
    else if t.elseFlow.Some? then
      RunFlow(t.elseFlow.value, k.e, Descend(id, "else"), k.path + [N(id)], k.regions, Inputs([v], map[]), c)
    else Res(Done(v), c)
  }

  // ----- places -----

  /** A subflow runs at the path of its step, in a chain context of its own. */
  lemma SubflowPlace(n: Node, id: NodeId, k: Frame, inputs: Inputs, c: Cfg, body: Flow)
    requires n.target == Call(body, None)
    ensures var r := RunFlow(body, k.e, Descend(id, "call"), k.path + [N(id)], k.regions, inputs, c);
      RunNode(n, id, k, inputs, c) == r
  {}

  /** Every pass of an iterate runs at a path of its own and all in one chain context, with the carried
      value. */
  lemma PassPlace(t: Target, id: NodeId, k: Frame, pass: nat, carry: Value, c: Cfg)
    requires t.Iterate? && pass < k.e.bound && !c.h.Signaled() && !FastForward(k.regions, c.w.signals)
    requires t.maxIters.Some? ==> pass < t.maxIters.value
    ensures var r := PassRun(t, id, k, pass, carry, c);
      && (!r.out.Done? ==> Loop(t, id, k, pass, carry, c) == LoopRes(r.out, pass, carry, r.c))
      && (r.out.Done? && t.until.None? ==>
            Loop(t, id, k, pass, carry, c) == Loop(t, id, k, pass + 1, r.out.value, r.c))
  {
    assert PassPath(OwnerPath(k, id), pass) == k.path + [N(id)] + [P(pass)];
  }

  ghost function PassRun(t: Target, id: NodeId, k: Frame, pass: nat, carry: Value, c: Cfg): Res
    requires t.Iterate?
  {
    RunFlow(t.body, k.e, Descend(id, "body"), k.path + [N(id)] + [P(pass)], k.regions, Inputs([carry], map[]), c)
  }

  /** A live entry of a snapshot hides the one a checkout had saved at the same path. */
  lemma LiveHidesSaved(saved: Saved, live: Saved, p: Path)
    ensures var s := saved.With(live);
      && (p in s.chain <==> p in saved.chain || p in live.chain)
      && (p in s.chain ==> s.chain[p] == if p in live.chain then live.chain[p] else saved.chain[p])
      && (p in s.iter <==> p in saved.iter || p in live.iter)
      && (p in s.iter ==> s.iter[p] == if p in live.iter then live.iter[p] else saved.iter[p])
      && (p in s.arm <==> p in saved.arm || p in live.arm)
      && (p in s.arm ==> s.arm[p] == if p in live.arm then live.arm[p] else saved.arm[p])
      && (p in s.scope <==> p in saved.scope || p in live.scope)
      && (p in s.scope ==> s.scope[p] == if p in live.scope then live.scope[p] else saved.scope[p])
  {}
}
