/** The moments a run can be stopped at: a halt set later than everything a structure does changes
    nothing it does, and for every verb a run calls there is a halt that stops the run in that verb. */
module Moments {
  import opened Wrappers
  import opened NodeIds
  import opened FlowModel
  import opened Engine
  import opened Progress
  import opened Transparency

  /** How many of the calls can see the halt being set: all but a step's own project=. */
  function Ticks(log: seq<Event>): nat {
    if log == [] then 0
    else Ticks(log[..|log| - 1]) + if log[|log| - 1].callee.Project? then 0 else 1
  }

  function Made(w: World): nat { Ticks(w.log) }

  /** c with the halt set during the n-th call of the whole run; raises: a verb that sees it raises. */
  function Set(c: Cfg, n: nat, raises: bool): Cfg
    requires Made(c.w) < n
  {
    c.(h := In(n - Made(c.w), raises))
  }

  lemma {:induction false} TicksGrow(a: seq<Event>, b: seq<Event>)
    requires |a| <= |b| && b[..|a|] == a
    ensures Ticks(a) <= Ticks(b)
    decreases |b|
  {
    if |a| < |b| {
      assert b[..|b| - 1][..|a|] == a;
      TicksGrow(a, b[..|b| - 1]);
    } else {
      assert a == b;
    }
  }

  lemma TickLast(log: seq<Event>, x: Event)
    ensures Ticks(log + [x]) == Ticks(log) + if x.callee.Project? then 0 else 1
  {
    assert (log + [x])[..|log|] == log;
  }

  lemma MadeGrows(a: World, b: World)
    requires Extends(a, b)
    ensures Made(a) <= Made(b)
  {
    TicksGrow(a.log, b.log);
  }

  /** A call other than the n-th leaves the halt where it is. */
  lemma CallSet(e: Env, callee: Callee, input: Inputs, c: Cfg, n: nat, b: bool)
    requires !callee.Project?
    ensures var (v, d) := CallUser(e, callee, input, Unhalted(c));
      Made(d.w) == Made(c.w) + 1 && Extends(c.w, d.w) && d == Unhalted(d) &&
      (Made(d.w) < n ==> CallUser(e, callee, input, Set(c, n, b)) == (v, Set(d, n, b)))
  {
    TickLast(c.w.log, Event(callee, input));
  }

  lemma InputsSet(k: Frame, at: Option<At>, index: nat, n: Node, last: Option<Value>, c: Cfg, m: nat, b: bool)
    ensures var (inputs, d) := InputsAt(k, at, index, n, last, Unhalted(c));
      Made(d.w) == Made(c.w) && Extends(c.w, d.w) && d == Unhalted(d) &&
      (Made(c.w) < m ==> InputsAt(k, at, index, n, last, Set(c, m, b)) == (inputs, Set(d, m, b)))
  {
    if n.project.Some? {
      var p := PassedThrough(k.e.u, last, k.input);
      TickLast(c.w.log, Event(Project(n.project.value), One(p)));
      if at.Some? && at.value.cursor.Pending? {
        TickLast(c.w.log, Event(Project(n.project.value), One(at.value.cursor.prev)));
      }
    }
  }

  lemma EnterSet(e: Env, scope: Option<Scope>, q: Path, c: Cfg, n: nat, b: bool)
    ensures var d := Enter(e, scope, q, Unhalted(c));
      Extends(c.w, d.w) && d == Unhalted(d) && (Made(c.w) <= Made(d.w) < n ==> Enter(e, scope, q, Set(c, n, b)) == Set(d, n, b))
  {
    if scope.Some? && q !in c.s.scope {
      CallSet(e, OpenScope(scope.value.projection), One(Current(e.u, c.w.scopes)), c, n, b);
    }
  }

  lemma LeaveSet(e: Env, scope: Option<Scope>, c: Cfg, n: nat, b: bool)
    ensures var d := Leave(e, scope, Unhalted(c));
      Extends(c.w, d.w) && d == Unhalted(d) && (Made(c.w) <= Made(d.w) < n ==> Leave(e, scope, Set(c, n, b)) == Set(d, n, b))
  {
    if scope.Some? && scope.value.merge.Some? {
      var child, parent := Current(e.u, c.w.scopes), Current(e.u, Parents(c.w.scopes));
      CallSet(e, Merge(scope.value.merge.value), Inputs([parent, child], map[]), c, n, b);
    }
  }

  lemma VerdictSet(e: Env, when: nat, q: Path, v: Value, c: Cfg, n: nat, b: bool)
    ensures var (x, d) := Verdict(e, when, q, v, Unhalted(c));
      Extends(c.w, d.w) && d == Unhalted(d) && (Made(c.w) <= Made(d.w) < n ==> Verdict(e, when, q, v, Set(c, n, b)) == (x, Set(d, n, b)))
  {
    if q !in c.s.arm {
      CallSet(e, When(when), One(v), c, n, b);
    }
  }

  lemma UntilSet(e: Env, until: Option<nat>, carry: Value, c: Cfg, n: nat, b: bool)
    ensures var (x, d) := UntilHolds(e, until, carry, Unhalted(c));
      Extends(c.w, d.w) && d == Unhalted(d) && (Made(c.w) <= Made(d.w) < n ==> UntilHolds(e, until, carry, Set(c, n, b)) == (x, Set(d, n, b)))
  {
    if until.Some? {
      CallSet(e, Until(until.value), One(carry), c, n, b);
    }
  }

  // ----- a halt set later changes nothing -----

  /** r, with the halt set during call n, is the unhalted w. */
  ghost predicate Later(r: Res, w: Res, n: nat, b: bool) {
    Made(w.c.w) < n && w.c == Unhalted(w.c) && r == Res(w.out, Set(w.c, n, b))
  }

  lemma {:induction false} FlowLater(f: Flow, e: Env, context: Context, path: Path, regions: seq<Region>, input: Inputs, c: Cfg, n: nat, b: bool)
    requires Made(RunFlow(f, e, context, path, regions, input, Unhalted(c)).c.w) < n
    ensures Made(c.w) < n
    ensures Later(RunFlow(f, e, context, path, regions, input, Set(c, n, b)), RunFlow(f, e, context, path, regions, input, Unhalted(c)), n, b)
    decreases f, |f.nodes| + 1, 0
  {
    FlowExtends(f, e, context, path, regions, input, Unhalted(c));
    MadeGrows(c.w, RunFlow(f, e, context, path, regions, input, Unhalted(c)).c.w);
    if |f.nodes| != 0 {
      var k := Frame(e, context, path, regions + RegionOf(f), input);
      if path !in c.s.chain {
        WalkLater(f, k, None, 0, None, c, n, b);
      } else {
        var cursor := c.s.chain[path];
        var c1 := c.(s := c.s.(chain := c.s.chain - {path}));
        var ids := Ids(context, Keys(f));
        if cursor.step in ids {
          var i := IndexOf(ids, cursor.step);
          WalkLater(f, k, Some(At(i, cursor)), i, if cursor.Pending? then Some(cursor.prev) else None, c1, n, b);
        }
      }
    }
  }

  lemma {:induction false} WalkLater(f: Flow, k: Frame, at: Option<At>, index: nat, last: Option<Value>, c: Cfg, n: nat, b: bool)
    requires index <= |f.nodes|
    requires Made(Walk(f, k, at, index, last, Unhalted(c)).c.w) < n
    ensures Made(c.w) < n
    ensures Later(Walk(f, k, at, index, last, Set(c, n, b)), Walk(f, k, at, index, last, Unhalted(c)), n, b)
    decreases f, |f.nodes| - index, 0
  {
    WalkExtends(f, k, at, index, last, Unhalted(c));
    MadeGrows(c.w, Walk(f, k, at, index, last, Unhalted(c)).c.w);
    if index < |f.nodes| {
      var node := f.nodes[index];
      if !Rerun(at) && !node.conclude && FastForward(k.regions, c.w.signals) {
        WalkLater(f, k, None, index + 1, last, c, n, b);
      } else {
        var (inputs, d) := InputsAt(k, at, index, node, last, Unhalted(c));
        InputsSet(k, at, index, node, last, c, n, b);
        StepLater(f, k, index, inputs, d, n, b);
      }
    }
  }

  lemma {:induction false} StepLater(f: Flow, k: Frame, index: nat, inputs: Inputs, c: Cfg, n: nat, b: bool)
    requires index < |f.nodes|
    requires Made(WalkStep(f, k, index, inputs, Unhalted(c)).c.w) < n
    ensures Made(c.w) < n
    ensures Later(WalkStep(f, k, index, inputs, Set(c, n, b)), WalkStep(f, k, index, inputs, Unhalted(c)), n, b)
    decreases f, |f.nodes| - index - 1, 2
  {
    var whole := WalkStep(f, k, index, inputs, Unhalted(c));
    StepExtends(f, k, index, inputs, Unhalted(c));
    MadeGrows(c.w, whole.c.w);
    var w := RunNode(f.nodes[index], IdAt(k.context, Keys(f), index), k, inputs, Unhalted(c));
    if w.out.Done? {
      WalkExtends(f, k, None, index + 1, Some(w.out.value), w.c);
      MadeGrows(w.c.w, whole.c.w);
    }
    NodeLater(f.nodes[index], IdAt(k.context, Keys(f), index), k, inputs, c, n, b);
    if w.out.Done? {
      WalkLater(f, k, None, index + 1, Some(w.out.value), w.c, n, b);
    }
  }

  lemma {:induction false} NodeLater(node: Node, id: NodeId, k: Frame, inputs: Inputs, c: Cfg, n: nat, b: bool)
    requires Made(RunNode(node, id, k, inputs, Unhalted(c)).c.w) < n
    ensures Made(c.w) < n
    ensures Later(RunNode(node, id, k, inputs, Set(c, n, b)), RunNode(node, id, k, inputs, Unhalted(c)), n, b)
    decreases node, 0, 0
  {
    NodeExtends(node, id, k, inputs, Unhalted(c));
    MadeGrows(c.w, RunNode(node, id, k, inputs, Unhalted(c)).c.w);
    match node.target
    case Step(verb) => CallSet(k.e, Verb(verb), inputs, c, n, b);
    case Call(body, scope) => CallLater(body, scope, id, k, inputs, c, n, b);
    case Branch(_, _, _) => BranchLater(node.target, id, k, First(k.e.u, inputs), c, n, b);
    case Iterate(_, _, _, _) => IterateLater(node.target, id, k, First(k.e.u, inputs), c, n, b);
  }

  /** What ends a block does after it. */
  lemma EndSet(e: Env, scope: Option<Scope>, q: Path, w: Res, n: nat, b: bool)
    requires w.c == Unhalted(w.c) && !w.out.Halted?
    ensures var whole := AfterCall(e, scope, q, w);
      Extends(w.c.w, whole.c.w) && whole.c == Unhalted(whole.c) &&
      (Made(w.c.w) <= Made(whole.c.w) < n ==> AfterCall(e, scope, q, Res(w.out, Set(w.c, n, b))) == Res(whole.out, Set(whole.c, n, b)))
  {
    LeaveSet(e, scope, w.c, n, b);
  }

  lemma {:induction false} CallLater(body: Flow, scope: Option<Scope>, id: NodeId, k: Frame, inputs: Inputs, c: Cfg, n: nat, b: bool)
    requires Made(RunCall(body, scope, id, k, inputs, Unhalted(c)).c.w) < n
    ensures Made(c.w) < n ==> Later(RunCall(body, scope, id, k, inputs, Set(c, n, b)), RunCall(body, scope, id, k, inputs, Unhalted(c)), n, b)
    decreases body, |body.nodes| + 2, 0
  {
    var q := OwnerPath(k, id);
    var d := Enter(k.e, scope, q, Unhalted(c));
    var w := RunFlow(body, k.e, Descend(id, "call"), q, k.regions, inputs, d);
    EnterSet(k.e, scope, q, c, n, b);
    EndSet(k.e, scope, q, w, n, b);
    MadeGrows(c.w, d.w);
    MadeGrows(w.c.w, AfterCall(k.e, scope, q, w).c.w);
    FlowLater(body, k.e, Descend(id, "call"), q, k.regions, inputs, d, n, b);
  }

  lemma {:induction false} BranchLater(t: Target, id: NodeId, k: Frame, v: Value, c: Cfg, n: nat, b: bool)
    requires t.Branch? && Made(RunBranch(t, id, k, v, Unhalted(c)).c.w) < n
    ensures Made(c.w) < n ==> Later(RunBranch(t, id, k, v, Set(c, n, b)), RunBranch(t, id, k, v, Unhalted(c)), n, b)
    decreases t, 0, 0
  {
    var q := OwnerPath(k, id);
    var (verdict, d) := Verdict(k.e, t.when, q, v, Unhalted(c));
    VerdictSet(k.e, t.when, q, v, c, n, b);
    MadeGrows(c.w, d.w);
    if verdict {
      FlowLater(t.thenFlow, k.e, Descend(id, "then"), q, k.regions, One(v), d, n, b);
    } else if t.elseFlow.Some? {
      FlowLater(t.elseFlow.value, k.e, Descend(id, "else"), q, k.regions, One(v), d, n, b);
    }
  }

  lemma EndPassesSet(e: Env, scope: Option<Scope>, q: Path, l: LoopRes, n: nat, b: bool)
    requires l.c == Unhalted(l.c) && !l.out.Halted?
    ensures var whole := AfterPasses(e, scope, q, l);
      Extends(l.c.w, whole.c.w) && whole.c == Unhalted(whole.c) &&
      (Made(l.c.w) <= Made(whole.c.w) < n ==>
        AfterPasses(e, scope, q, LoopRes(l.out, l.pass, l.carry, Set(l.c, n, b))) == Res(whole.out, Set(whole.c, n, b)))
  {
    LeaveSet(e, scope, l.c, n, b);
  }

  /** Where an iterate starts: its position and the configuration its passes run in. */
  function IterateStart(t: Target, q: Path, e: Env, v: Value, c: Cfg): (IterCursor, Cfg)
    requires t.Iterate?
  {
    var (at, c1) := TakePosition(q, v, c);
    (at, Enter(e, t.scope, q, c1))
  }

  lemma StartSet(t: Target, q: Path, e: Env, v: Value, c: Cfg, n: nat, b: bool)
    requires t.Iterate?
    ensures var (at, d) := IterateStart(t, q, e, v, Unhalted(c));
      Quiet(c.w, d.w) && d == Unhalted(d) &&
      (Made(c.w) <= Made(d.w) < n ==> IterateStart(t, q, e, v, Set(c, n, b)) == (at, Set(d, n, b)))
  {
    var (at, c1) := TakePosition(q, v, c);
    EnterSet(e, t.scope, q, c1, n, b);
    QuietEnter(e, t.scope, q, Unhalted(c1));
  }

  lemma IterateEnds(t: Target, id: NodeId, k: Frame, v: Value, c: Cfg)
    requires t.Iterate?
    ensures var q := OwnerPath(k, id);
      var (at, d) := IterateStart(t, q, k.e, v, c);
      RunIterate(t, id, k, v, c) == AfterPasses(k.e, t.scope, q, Passes(t, id, k, at, d))
  {}

  lemma {:induction false} IterateLater(t: Target, id: NodeId, k: Frame, v: Value, c: Cfg, n: nat, b: bool)
    requires t.Iterate? && Made(RunIterate(t, id, k, v, Unhalted(c)).c.w) < n
    ensures Made(c.w) < n ==> Later(RunIterate(t, id, k, v, Set(c, n, b)), RunIterate(t, id, k, v, Unhalted(c)), n, b)
    decreases t, 0, 0
  {
    var q := OwnerPath(k, id);
    var (at, d) := IterateStart(t, q, k.e, v, Unhalted(c));
    var l := Passes(t, id, k, at, d);
    var whole := AfterPasses(k.e, t.scope, q, l);
    IterateEnds(t, id, k, v, Unhalted(c));
    StartSet(t, q, k.e, v, c, n, b);
    EndPassesSet(k.e, t.scope, q, l, n, b);
    PassesExtend(t, id, k, at, d);
    MadeGrows(c.w, d.w);
    MadeGrows(d.w, l.c.w);
    MadeGrows(l.c.w, whole.c.w);
    PassesLater(t, id, k, at, d, n, b);
    if Made(c.w) < n {
      IterateEnds(t, id, k, v, Set(c, n, b));
    }
  }

  ghost predicate LoopLaterTo(l: LoopRes, w: LoopRes, n: nat, b: bool) {
    Made(w.c.w) < n && w.c == Unhalted(w.c) && l == LoopRes(w.out, w.pass, w.carry, Set(w.c, n, b))
  }

  lemma {:induction false} PassesExtend(t: Target, id: NodeId, k: Frame, at: IterCursor, c: Cfg)
    requires t.Iterate?
    ensures Extends(c.w, Passes(t, id, k, at, c).c.w)
  {
    var (done, c1) := if at.done.None? then UntilHolds(k.e, t.until, at.carry, c) else (at.done.value, c);
    if !done {
      LoopExtends(t, id, k, at.pass, at.carry, c1);
      ExtendsTransitive(c.w, c1.w, Passes(t, id, k, at, c).c.w);
    }
  }

  lemma {:induction false} PassesLater(t: Target, id: NodeId, k: Frame, at: IterCursor, c: Cfg, n: nat, b: bool)
    requires t.Iterate? && Made(Passes(t, id, k, at, Unhalted(c)).c.w) < n
    ensures Made(c.w) < n ==> LoopLaterTo(Passes(t, id, k, at, Set(c, n, b)), Passes(t, id, k, at, Unhalted(c)), n, b)
    decreases t.body, |t.body.nodes| + 2, k.e.bound + 1, 0
  {
    var (done, d) := if at.done.None? then UntilHolds(k.e, t.until, at.carry, Unhalted(c)) else (at.done.value, Unhalted(c));
    UntilSet(k.e, t.until, at.carry, c, n, b);
    MadeGrows(c.w, d.w);
    if !done {
      LoopLater(t, id, k, at.pass, at.carry, d, n, b);
    }
  }

  lemma {:induction false} LoopLater(t: Target, id: NodeId, k: Frame, pass: nat, carry: Value, c: Cfg, n: nat, b: bool)
    requires t.Iterate? && Made(Loop(t, id, k, pass, carry, Unhalted(c)).c.w) < n
    ensures Made(c.w) < n
    ensures LoopLaterTo(Loop(t, id, k, pass, carry, Set(c, n, b)), Loop(t, id, k, pass, carry, Unhalted(c)), n, b)
    decreases t.body, |t.body.nodes| + 2, k.e.bound - pass, 0
  {
    var q := OwnerPath(k, id);
    var whole := Loop(t, id, k, pass, carry, Unhalted(c));
    LoopExtends(t, id, k, pass, carry, Unhalted(c));
    MadeGrows(c.w, whole.c.w);
    if !(t.maxIters.Some? && pass >= t.maxIters.value) && !ShortcutEnds(k, q, pass, c) && pass < k.e.bound {
      var w := RunFlow(t.body, k.e, Descend(id, "body"), PassPath(q, pass), k.regions, One(carry), Unhalted(c));
      PassExtends(t, id, k, pass, carry, w);
      MadeGrows(w.c.w, whole.c.w);
      FlowLater(t.body, k.e, Descend(id, "body"), PassPath(q, pass), k.regions, One(carry), c, n, b);
      PassLater(t, id, k, pass, carry, w, n, b);
    }
  }

  lemma {:induction false} PassExtends(t: Target, id: NodeId, k: Frame, pass: nat, carry: Value, r: Res)
    requires t.Iterate? && pass < k.e.bound
    ensures Extends(r.c.w, AfterPass(t, id, k, pass, carry, r).c.w)
  {
    if r.out.Done? {
      var (done, c1) := UntilHolds(k.e, t.until, r.out.value, r.c);
      if !done {
        LoopExtends(t, id, k, pass + 1, r.out.value, c1);
        ExtendsTransitive(r.c.w, c1.w, AfterPass(t, id, k, pass, carry, r).c.w);
      }
    }
  }

  lemma {:induction false} PassLater(t: Target, id: NodeId, k: Frame, pass: nat, carry: Value, w: Res, n: nat, b: bool)
    requires t.Iterate? && pass < k.e.bound && w.c == Unhalted(w.c) && !w.out.Halted?
    requires Made(w.c.w) < n && Made(AfterPass(t, id, k, pass, carry, w).c.w) < n
    ensures LoopLaterTo(AfterPass(t, id, k, pass, carry, Res(w.out, Set(w.c, n, b))), AfterPass(t, id, k, pass, carry, w), n, b)
    decreases t.body, |t.body.nodes| + 2, k.e.bound - pass - 1, 1
  {
    if w.out.Done? {
      var (done, d) := UntilHolds(k.e, t.until, w.out.value, w.c);
      UntilSet(k.e, t.until, w.out.value, w.c, n, b);
      MadeGrows(w.c.w, d.w);
      if !done {
        LoopExtends(t, id, k, pass + 1, w.out.value, d);
        LoopLater(t, id, k, pass + 1, w.out.value, d, n, b);
      }
    }
  }

  // ----- a run can be stopped in any verb it calls -----

  /** The i-th call of the run from a to b is a verb. */
  ghost predicate VerbAt(a: World, b: World, i: nat) {
    |a.log| <= i < |b.log| && b.log[i].callee.Verb?
  }

  /** The halt that is set during the i-th entry of the log is the one set during this call. */
  function Moment(w: World, i: nat): nat
    requires i <= |w.log|
  {
    Ticks(w.log[..i]) + 1
  }

  lemma MomentEarly(a: World, b: World, i: nat)
    requires Extends(a, b) && i < |a.log|
    ensures a.log[i] == b.log[i] && a.log[..i] == b.log[..i] && Moment(a, i) == Moment(b, i)
  {
    assert b.log[..|a.log|][i] == a.log[i];
    assert b.log[..|a.log|][..i] == b.log[..i];
  }

  lemma MomentLate(a: World, b: World, i: nat)
    requires Extends(a, b) && |a.log| <= i <= |b.log|
    ensures Made(a) < Moment(b, i)
  {
    assert b.log[..i][..|a.log|] == a.log;
    TicksGrow(a.log, b.log[..i]);
  }

  /** r stopped in the verb that is the i-th call of w, and made every call before it. */
  ghost predicate StopsIn(r: Res, w: World, i: nat)
    requires i <= |w.log|
  {
    r.out == Halted(true) && r.c.w.log == w.log[..i]
  }

  ghost predicate LoopStopsIn(l: LoopRes, w: World, i: nat)
    requires i <= |w.log|
  {
    l.out == Halted(true) && l.c.w.log == w.log[..i]
  }

  /** No verb is called on the way from a to b. */
  ghost predicate Quiet(a: World, b: World) {
    Extends(a, b) && forall i | |a.log| <= i < |b.log| :: !b.log[i].callee.Verb?
  }

  /** A verb called after a quiet beginning and before a quiet end is called in between. */
  lemma VerbBetween(a: World, b: World, c: World, d: World, i: nat)
    requires Quiet(a, b) && Extends(b, c) && Quiet(c, d) && VerbAt(a, d, i)
    ensures VerbAt(b, c, i) && Moment(c, i) == Moment(d, i) && c.log[..i] == d.log[..i] && Made(b) < Moment(d, i)
  {
    assert i < |c.log|;
    MomentEarly(c, d, i);
    if i < |b.log| {
      MomentEarly(b, c, i);
    }
    MomentLate(b, c, i);
  }

  lemma QuietEnter(e: Env, scope: Option<Scope>, q: Path, c: Cfg)
    ensures Quiet(c.w, Enter(e, scope, q, c).w)
  {}

  lemma QuietLeave(e: Env, scope: Option<Scope>, q: Path, r: Res)
    ensures Quiet(r.c.w, AfterCall(e, scope, q, r).c.w)
  {}

  lemma QuietPasses(e: Env, scope: Option<Scope>, q: Path, l: LoopRes)
    ensures Quiet(l.c.w, AfterPasses(e, scope, q, l).c.w)
  {}

  lemma QuietVerdict(e: Env, when: nat, q: Path, v: Value, c: Cfg)
    ensures Quiet(c.w, Verdict(e, when, q, v, c).1.w)
  {}

  lemma QuietUntil(e: Env, until: Option<nat>, carry: Value, c: Cfg)
    ensures Quiet(c.w, UntilHolds(e, until, carry, c).1.w)
  {}

  lemma QuietInputs(k: Frame, at: Option<At>, index: nat, n: Node, last: Option<Value>, c: Cfg)
    ensures Quiet(c.w, InputsAt(k, at, index, n, last, c).1.w)
  {}

  lemma {:induction false} FlowStops(f: Flow, e: Env, context: Context, path: Path, regions: seq<Region>, input: Inputs, c: Cfg, i: nat)
    requires VerbAt(c.w, RunFlow(f, e, context, path, regions, input, Unhalted(c)).c.w, i)
    ensures var w := RunFlow(f, e, context, path, regions, input, Unhalted(c)).c.w;
      Made(c.w) < Moment(w, i) && StopsIn(RunFlow(f, e, context, path, regions, input, Set(c, Moment(w, i), true)), w, i)
    decreases f, |f.nodes| + 1, 0
  {
    var k := Frame(e, context, path, regions + RegionOf(f), input);
    if path !in c.s.chain {
      WalkStops(f, k, None, 0, None, c, i);
    } else {
      var cursor := c.s.chain[path];
      var c1 := c.(s := c.s.(chain := c.s.chain - {path}));
      var at := IndexOf(Ids(context, Keys(f)), cursor.step);
      WalkStops(f, k, Some(At(at, cursor)), at, if cursor.Pending? then Some(cursor.prev) else None, c1, i);
    }
  }

  lemma {:induction false} WalkStops(f: Flow, k: Frame, at: Option<At>, index: nat, last: Option<Value>, c: Cfg, i: nat)
    requires index <= |f.nodes|
    requires VerbAt(c.w, Walk(f, k, at, index, last, Unhalted(c)).c.w, i)
    ensures var w := Walk(f, k, at, index, last, Unhalted(c)).c.w;
      Made(c.w) < Moment(w, i) && StopsIn(Walk(f, k, at, index, last, Set(c, Moment(w, i), true)), w, i)
    decreases f, |f.nodes| - index, 0
  {
    var whole := Walk(f, k, at, index, last, Unhalted(c));
    WalkExtends(f, k, at, index, last, Unhalted(c));
    MomentLate(c.w, whole.c.w, i);
    var node := f.nodes[index];
    if !Rerun(at) && !node.conclude && FastForward(k.regions, c.w.signals) {
      WalkStops(f, k, None, index + 1, last, c, i);
    } else {
      var (inputs, d) := InputsAt(k, at, index, node, last, Unhalted(c));
      InputsSet(k, at, index, node, last, c, Moment(whole.c.w, i), true);
      QuietInputs(k, at, index, node, last, Unhalted(c));
      StepExtends(f, k, index, inputs, d);
      VerbBetween(c.w, d.w, whole.c.w, whole.c.w, i);
      StepStops(f, k, index, inputs, d, i);
    }
  }

  lemma {:induction false} StepStops(f: Flow, k: Frame, index: nat, inputs: Inputs, c: Cfg, i: nat)
    requires index < |f.nodes|
    requires VerbAt(c.w, WalkStep(f, k, index, inputs, Unhalted(c)).c.w, i)
    ensures var w := WalkStep(f, k, index, inputs, Unhalted(c)).c.w;
      Made(c.w) < Moment(w, i) && StopsIn(WalkStep(f, k, index, inputs, Set(c, Moment(w, i), true)), w, i)
    decreases f, |f.nodes| - index - 1, 2
  {
    var whole := WalkStep(f, k, index, inputs, Unhalted(c));
    var id := IdAt(k.context, Keys(f), index);
    var w := RunNode(f.nodes[index], id, k, inputs, Unhalted(c));
    StepExtends(f, k, index, inputs, Unhalted(c));
    MomentLate(c.w, whole.c.w, i);
    NodeExtends(f.nodes[index], id, k, inputs, Unhalted(c));
    assert NodeOk(Unhalted(c), w, OwnerPath(k, id));
    assert whole == AfterStep(f, k, index, inputs, w);
    match w.out {
      case Done(v) =>
        WalkExtends(f, k, None, index + 1, Some(v), w.c);
        assert whole == Walk(f, k, None, index + 1, Some(v), w.c);
      case Failed(_) => assert whole == w;
      case Diverged => assert whole == w;
      case Halted(_) =>
    }
    if i < |w.c.w.log| {
      MomentEarly(w.c.w, whole.c.w, i);
      NodeStops(f.nodes[index], id, k, inputs, c, i);
    } else {
      MomentLate(w.c.w, whole.c.w, i);
      NodeLater(f.nodes[index], id, k, inputs, c, Moment(whole.c.w, i), true);
      WalkStops(f, k, None, index + 1, Some(w.out.value), w.c, i);
    }
  }

  lemma {:induction false} NodeStops(node: Node, id: NodeId, k: Frame, inputs: Inputs, c: Cfg, i: nat)
    requires VerbAt(c.w, RunNode(node, id, k, inputs, Unhalted(c)).c.w, i)
    ensures var w := RunNode(node, id, k, inputs, Unhalted(c)).c.w;
      Made(c.w) < Moment(w, i) && StopsIn(RunNode(node, id, k, inputs, Set(c, Moment(w, i), true)), w, i)
    decreases node, 0, 0
  {
    var w := RunNode(node, id, k, inputs, Unhalted(c)).c.w;
    NodeExtends(node, id, k, inputs, Unhalted(c));
    MomentLate(c.w, w, i);
    match node.target
    case Step(verb) => assert w.log[..i] == c.w.log;
    case Call(body, scope) => CallStops(body, scope, id, k, inputs, c, i);
    case Branch(_, _, _) => BranchStops(node.target, id, k, First(k.e.u, inputs), c, i);
    case Iterate(_, _, _, _) => IterateStops(node.target, id, k, First(k.e.u, inputs), c, i);
  }

  lemma {:induction false} CallStops(body: Flow, scope: Option<Scope>, id: NodeId, k: Frame, inputs: Inputs, c: Cfg, i: nat)
    requires VerbAt(c.w, RunCall(body, scope, id, k, inputs, Unhalted(c)).c.w, i)
    ensures var w := RunCall(body, scope, id, k, inputs, Unhalted(c)).c.w;
      Made(c.w) < Moment(w, i) ==> StopsIn(RunCall(body, scope, id, k, inputs, Set(c, Moment(w, i), true)), w, i)
    decreases body, |body.nodes| + 2, 0
  {
    var q := OwnerPath(k, id);
    var d := Enter(k.e, scope, q, Unhalted(c));
    var r := RunFlow(body, k.e, Descend(id, "call"), q, k.regions, inputs, d);
    var w := AfterCall(k.e, scope, q, r).c.w;
    QuietEnter(k.e, scope, q, Unhalted(c));
    FlowExtends(body, k.e, Descend(id, "call"), q, k.regions, inputs, d);
    QuietLeave(k.e, scope, q, r);
    VerbBetween(c.w, d.w, r.c.w, w, i);
    MadeGrows(c.w, d.w);
    EnterSet(k.e, scope, q, c, Moment(w, i), true);
    FlowStops(body, k.e, Descend(id, "call"), q, k.regions, inputs, d, i);
  }

  lemma {:induction false} BranchStops(t: Target, id: NodeId, k: Frame, v: Value, c: Cfg, i: nat)
    requires t.Branch? && VerbAt(c.w, RunBranch(t, id, k, v, Unhalted(c)).c.w, i)
    ensures var w := RunBranch(t, id, k, v, Unhalted(c)).c.w;
      Made(c.w) < Moment(w, i) ==> StopsIn(RunBranch(t, id, k, v, Set(c, Moment(w, i), true)), w, i)
    decreases t, 0, 0
  {
    var q := OwnerPath(k, id);
    var w := RunBranch(t, id, k, v, Unhalted(c)).c.w;
    var (verdict, d) := Verdict(k.e, t.when, q, v, Unhalted(c));
    QuietVerdict(k.e, t.when, q, v, Unhalted(c));
    VerdictSet(k.e, t.when, q, v, c, Moment(w, i), true);
    if verdict {
      FlowExtends(t.thenFlow, k.e, Descend(id, "then"), q, k.regions, One(v), d);
      VerbBetween(c.w, d.w, w, w, i);
      MadeGrows(c.w, d.w);
      FlowStops(t.thenFlow, k.e, Descend(id, "then"), q, k.regions, One(v), d, i);
    } else if t.elseFlow.Some? {
      FlowExtends(t.elseFlow.value, k.e, Descend(id, "else"), q, k.regions, One(v), d);
      VerbBetween(c.w, d.w, w, w, i);
      MadeGrows(c.w, d.w);
      FlowStops(t.elseFlow.value, k.e, Descend(id, "else"), q, k.regions, One(v), d, i);
    }
  }

  lemma {:induction false} IterateStops(t: Target, id: NodeId, k: Frame, v: Value, c: Cfg, i: nat)
    requires t.Iterate? && VerbAt(c.w, RunIterate(t, id, k, v, Unhalted(c)).c.w, i)
    ensures var w := RunIterate(t, id, k, v, Unhalted(c)).c.w;
      Made(c.w) < Moment(w, i) ==> StopsIn(RunIterate(t, id, k, v, Set(c, Moment(w, i), true)), w, i)
    decreases t, 0, 0
  {
    var q := OwnerPath(k, id);
    var w := RunIterate(t, id, k, v, Unhalted(c)).c.w;
    var (at, d) := IterateStart(t, q, k.e, v, Unhalted(c));
    var l := Passes(t, id, k, at, d);
    IterateEnds(t, id, k, v, Unhalted(c));
    StartSet(t, q, k.e, v, c, Moment(w, i), true);
    PassesExtend(t, id, k, at, d);
    QuietPasses(k.e, t.scope, q, l);
    VerbBetween(c.w, d.w, l.c.w, w, i);
    MadeGrows(c.w, d.w);
    PassesStop(t, id, k, at, d, i);
    if Made(c.w) < Moment(w, i) {
      IterateEnds(t, id, k, v, Set(c, Moment(w, i), true));
    }
  }

  lemma {:induction false} PassesStop(t: Target, id: NodeId, k: Frame, at: IterCursor, c: Cfg, i: nat)
    requires t.Iterate? && VerbAt(c.w, Passes(t, id, k, at, Unhalted(c)).c.w, i)
    ensures var w := Passes(t, id, k, at, Unhalted(c)).c.w;
      Made(c.w) < Moment(w, i) ==> LoopStopsIn(Passes(t, id, k, at, Set(c, Moment(w, i), true)), w, i)
    decreases t.body, |t.body.nodes| + 2, k.e.bound + 1, 0
  {
    var (done, d) := if at.done.None? then UntilHolds(k.e, t.until, at.carry, Unhalted(c)) else (at.done.value, Unhalted(c));
    var w := Passes(t, id, k, at, Unhalted(c)).c.w;
    QuietUntil(k.e, t.until, at.carry, Unhalted(c));
    UntilSet(k.e, t.until, at.carry, c, Moment(w, i), true);
    if !done {
      LoopExtends(t, id, k, at.pass, at.carry, d);
      VerbBetween(c.w, d.w, w, w, i);
      MadeGrows(c.w, d.w);
      LoopStops(t, id, k, at.pass, at.carry, d, i);
    }
  }

  lemma {:induction false} LoopStops(t: Target, id: NodeId, k: Frame, pass: nat, carry: Value, c: Cfg, i: nat)
    requires t.Iterate? && VerbAt(c.w, Loop(t, id, k, pass, carry, Unhalted(c)).c.w, i)
    ensures var w := Loop(t, id, k, pass, carry, Unhalted(c)).c.w;
      Made(c.w) < Moment(w, i) && LoopStopsIn(Loop(t, id, k, pass, carry, Set(c, Moment(w, i), true)), w, i)
    decreases t.body, |t.body.nodes| + 2, k.e.bound - pass, 0
  {
    var whole := Loop(t, id, k, pass, carry, Unhalted(c));
    LoopExtends(t, id, k, pass, carry, Unhalted(c));
    MomentLate(c.w, whole.c.w, i);
    var r := RunFlow(t.body, k.e, Descend(id, "body"), PassPath(OwnerPath(k, id), pass), k.regions, One(carry), Unhalted(c));
    FlowExtends(t.body, k.e, Descend(id, "body"), PassPath(OwnerPath(k, id), pass), k.regions, One(carry), Unhalted(c));
    assert whole == AfterPass(t, id, k, pass, carry, r);
    PassExtends(t, id, k, pass, carry, r);
    if i < |r.c.w.log| {
      MomentEarly(r.c.w, whole.c.w, i);
      FlowStops(t.body, k.e, Descend(id, "body"), PassPath(OwnerPath(k, id), pass), k.regions, One(carry), c, i);
    } else {
      MomentLate(r.c.w, whole.c.w, i);
      FlowLater(t.body, k.e, Descend(id, "body"), PassPath(OwnerPath(k, id), pass), k.regions, One(carry), c, Moment(whole.c.w, i), true);
      PassStops(t, id, k, pass, carry, r, i);
    }
  }

  lemma {:induction false} PassStops(t: Target, id: NodeId, k: Frame, pass: nat, carry: Value, r: Res, i: nat)
    requires t.Iterate? && pass < k.e.bound && r.c == Unhalted(r.c) && !r.out.Halted?
    requires VerbAt(r.c.w, AfterPass(t, id, k, pass, carry, r).c.w, i)
    ensures var w := AfterPass(t, id, k, pass, carry, r).c.w;
      Made(r.c.w) < Moment(w, i) ==>
        LoopStopsIn(AfterPass(t, id, k, pass, carry, Res(r.out, Set(r.c, Moment(w, i), true))), w, i)
    decreases t.body, |t.body.nodes| + 2, k.e.bound - pass - 1, 1
  {
    var w := AfterPass(t, id, k, pass, carry, r).c.w;
    if r.out.Done? {
      var (done, d) := UntilHolds(k.e, t.until, r.out.value, r.c);
      QuietUntil(k.e, t.until, r.out.value, r.c);
      UntilSet(k.e, t.until, r.out.value, r.c, Moment(w, i), true);
      if !done {
        LoopExtends(t, id, k, pass + 1, r.out.value, d);
        VerbBetween(r.c.w, d.w, w, w, i);
        MadeGrows(r.c.w, d.w);
        LoopStops(t, id, k, pass + 1, r.out.value, d, i);
      }
    }
  }
}
