/** Halting and resuming is invisible: it changes neither the result nor the state nor the calls
    into user code, whatever the tree, the saved entries and the moment of the halt. */
module Transparency {
  import opened Wrappers
  import opened NodeIds
  import opened FlowModel
  import opened Engine

  /** The same configuration with no halt to come: what a resumed run starts from. */
  function Unhalted(c: Cfg): Cfg { c.(h := Never) }

  /** r halted where the rest of the run is `rest`, or ended exactly as `whole`, the run without
      a halt. `rest` is the run resumed from what r left. */
  ghost predicate Continues(r: Res, rest: Res, whole: Res) {
    if r.out.Halted? then rest == whole else Res(r.out, Unhalted(r.c)) == whole
  }

  lemma {:induction false} RunFlowContinues(f: Flow, e: Env, context: Context, path: Path, regions: seq<Region>, input: Inputs, c: Cfg)
    ensures var r := RunFlow(f, e, context, path, regions, input, c);
      Continues(r, RunFlow(f, e, context, path, regions, input, Unhalted(r.c)),
                RunFlow(f, e, context, path, regions, input, Unhalted(c)))
    decreases f, |f.nodes| + 1, 0
  {
    if |f.nodes| != 0 {
      var k := Frame(e, context, path, regions + RegionOf(f), input);
      if path !in c.s.chain {
        WalkContinues(f, k, regions, None, 0, None, c);
      } else {
        var cursor := c.s.chain[path];
        var c1 := c.(s := c.s.(chain := c.s.chain - {path}));
        var ids := Ids(context, Keys(f));
        if cursor.step in ids {
          var i := IndexOf(ids, cursor.step);
          WalkContinues(f, k, regions, Some(At(i, cursor)), i, if cursor.Pending? then Some(cursor.prev) else None, c1);
        }
      }
    }
  }

  /** The chain of k resumed from c. */
  function Resumed(f: Flow, k: Frame, regions: seq<Region>, c: Cfg): Res
    requires k.regions == regions + RegionOf(f)
  {
    RunFlow(f, k.e, k.context, k.path, regions, k.input, Unhalted(c))
  }

  /** A chain's position found again: it continues at the step its cursor was registered for. */
  lemma ResumedAt(f: Flow, k: Frame, regions: seq<Region>, index: nat, cursor: ChainCursor, c: Cfg)
    requires k.regions == regions + RegionOf(f)
    requires index < |f.nodes| && cursor.step == IdAt(k.context, Keys(f), index)
    requires k.path !in c.s.chain
    ensures Resumed(f, k, regions, Register(c, k.path, cursor, false).c)
         == Walk(f, k, Some(At(index, cursor)), index, if cursor.Pending? then Some(cursor.prev) else None, Unhalted(c))
  {
    var r := Register(c, k.path, cursor, false).c;
    assert r.s.chain - {k.path} == c.s.chain;
    assert Ids(k.context, Keys(f))[index] == cursor.step;
    IndexOfOwn(k.context, Keys(f), index);
  }

  lemma {:induction false} WalkContinues(f: Flow, k: Frame, regions: seq<Region>, at: Option<At>, index: nat, last: Option<Value>, c: Cfg)
    requires index <= |f.nodes| && k.path !in c.s.chain && k.regions == regions + RegionOf(f)
    ensures var r := Walk(f, k, at, index, last, c);
      Continues(r, Resumed(f, k, regions, r.c), Walk(f, k, at, index, last, Unhalted(c)))
    decreases f, |f.nodes| - index, 0
  {
    if index < |f.nodes| {
      var n := f.nodes[index];
      if !Rerun(at) && !n.conclude && FastForward(k.regions, c.w.signals) {
        WalkContinues(f, k, regions, None, index + 1, last, c);
      } else {
        var (inputs, c1) := InputsAt(k, at, index, n, last, c);
        assert InputsAt(k, at, index, n, last, Unhalted(c)) == (inputs, Unhalted(c1));
        WalkStepContinues(f, k, regions, index, inputs, c1);
      }
    }
  }

  lemma {:induction false} WalkStepContinues(f: Flow, k: Frame, regions: seq<Region>, index: nat, inputs: Inputs, c: Cfg)
    requires index < |f.nodes| && k.path !in c.s.chain && k.regions == regions + RegionOf(f)
    ensures var r := WalkStep(f, k, index, inputs, c);
      Continues(r, Resumed(f, k, regions, r.c), WalkStep(f, k, index, inputs, Unhalted(c)))
    decreases f, |f.nodes| - index - 1, 2
  {
    var id := IdAt(k.context, Keys(f), index);
    var r := RunNode(f.nodes[index], id, k, inputs, c);
    NodeFits(k, id, c, r);
    NodeContinues(f.nodes[index], id, k, inputs, c);
    if r.out.Halted? {
      var cursor := Running(id, inputs);
      ResumedAt(f, k, regions, index, cursor, r.c);
      assert Walk(f, k, Some(At(index, cursor)), index, None, Unhalted(r.c)) == WalkStep(f, k, index, inputs, Unhalted(r.c));
    } else {
      AfterStepContinues(f, k, regions, index, inputs, r);
    }
  }

  lemma {:induction false} AfterStepContinues(f: Flow, k: Frame, regions: seq<Region>, index: nat, inputs: Inputs, r: Res)
    requires index < |f.nodes| && k.path !in r.c.s.chain && k.regions == regions + RegionOf(f)
    requires !r.out.Halted?
    ensures var r' := AfterStep(f, k, index, inputs, r);
      Continues(r', Resumed(f, k, regions, r'.c), AfterStep(f, k, index, inputs, Res(r.out, Unhalted(r.c))))
    decreases f, |f.nodes| - index - 1, 1
  {
    match r.out
    case Failed(_) =>
    case Diverged =>
    case Done(v) =>
      if r.c.h.Signaled() && index + 1 < |f.nodes| {
        MoveToContinues(f, k, regions, index + 1, v, r.c);
      } else {
        WalkContinues(f, k, regions, None, index + 1, Some(v), r.c);
      }
  }

  /** Stopping before a step computes, or defers, exactly what going on would. */
  lemma MoveToContinues(f: Flow, k: Frame, regions: seq<Region>, index: nat, prev: Value, c: Cfg)
    requires 0 < index < |f.nodes| && k.path !in c.s.chain
    requires k.regions == regions + RegionOf(f)
    ensures Resumed(f, k, regions, MoveTo(f, k, index, prev, c).c) == Walk(f, k, None, index, Some(prev), Unhalted(c))
  {
    var n := f.nodes[index];
    var id := IdAt(k.context, Keys(f), index);
    if !n.conclude && FastForward(k.regions, c.w.signals) {
      ResumedAt(f, k, regions, index, Pending(id, One(prev), prev, true), c);
    } else {
      var (inputs, c1) := StepInputs(k.e, index, n, prev, k.input, c);
      ResumedAt(f, k, regions, index, Pending(id, inputs, prev, false), c1);
    }
  }

  lemma {:induction false} NodeContinues(n: Node, id: NodeId, k: Frame, inputs: Inputs, c: Cfg)
    ensures var r := RunNode(n, id, k, inputs, c);
      Continues(r, RunNode(n, id, k, inputs, Unhalted(r.c)), RunNode(n, id, k, inputs, Unhalted(c)))
    decreases n, 0, 0
  {
    match n.target
    case Step(verb) =>
    case Call(body, scope) => CallContinues(body, scope, id, k, inputs, c);
    case Branch(_, _, _) => BranchContinues(n.target, id, k, First(k.e.u, inputs), c);
    case Iterate(_, _, _, _) => IterateContinues(n.target, id, k, First(k.e.u, inputs), c);
  }

  /** A suspended block gets its own scope back. */
  lemma EnterSuspended(e: Env, scope: Option<Scope>, q: Path, c: Cfg)
    requires scope.Some? ==> |c.w.scopes| > 0 && q !in c.s.scope
    ensures Enter(e, scope, q, Unhalted(Suspend(e, scope, q, c))) == Unhalted(c)
  {
    if scope.Some? {
      assert c.s.scope[q := Current(e.u, c.w.scopes)] - {q} == c.s.scope;
      assert Parents(c.w.scopes) + [Current(e.u, c.w.scopes)] == c.w.scopes;
    }
  }

  /** Opening and merging a scope do not depend on the halt. */
  lemma ScopesUnhalted(e: Env, scope: Option<Scope>, q: Path, c: Cfg)
    ensures Enter(e, scope, q, Unhalted(c)) == Unhalted(Enter(e, scope, q, c))
    ensures Leave(e, scope, Unhalted(c)) == Unhalted(Leave(e, scope, c))
    ensures Suspend(e, scope, q, Unhalted(c)) == Unhalted(Suspend(e, scope, q, c))
  {
  }

  lemma {:induction false} CallContinues(body: Flow, scope: Option<Scope>, id: NodeId, k: Frame, inputs: Inputs, c: Cfg)
    ensures var r := RunCall(body, scope, id, k, inputs, c);
      Continues(r, RunCall(body, scope, id, k, inputs, Unhalted(r.c)), RunCall(body, scope, id, k, inputs, Unhalted(c)))
    decreases body, |body.nodes| + 2, 0
  {
    var q := OwnerPath(k, id);
    var c1 := Enter(k.e, scope, q, c);
    var r := RunFlow(body, k.e, Descend(id, "call"), q, k.regions, inputs, c1);
    RunFlowContinues(body, k.e, Descend(id, "call"), q, k.regions, inputs, c1);
    ScopesUnhalted(k.e, scope, q, c);
    ScopesUnhalted(k.e, scope, q, r.c);
    if r.out.Halted? {
      assert Marked(q);
      EnterSuspended(k.e, scope, q, r.c);
    }
  }

  lemma {:induction false} BranchContinues(t: Target, id: NodeId, k: Frame, v: Value, c: Cfg)
    requires t.Branch?
    ensures var r := RunBranch(t, id, k, v, c);
      Continues(r, RunBranch(t, id, k, v, Unhalted(r.c)), RunBranch(t, id, k, v, Unhalted(c)))
    decreases t, 0, 0
  {
    var q := OwnerPath(k, id);
    var (verdict, c1) := Verdict(k.e, t.when, q, v, c);
    assert Verdict(k.e, t.when, q, v, Unhalted(c)) == (verdict, Unhalted(c1));
    assert Marked(q);
    if verdict {
      var r := RunFlow(t.thenFlow, k.e, Descend(id, "then"), q, k.regions, One(v), c1);
      RunFlowContinues(t.thenFlow, k.e, Descend(id, "then"), q, k.regions, One(v), c1);
      ArmKept(k.e, t.when, q, true, v, r.c);
    } else if t.elseFlow.Some? {
      var r := RunFlow(t.elseFlow.value, k.e, Descend(id, "else"), q, k.regions, One(v), c1);
      RunFlowContinues(t.elseFlow.value, k.e, Descend(id, "else"), q, k.regions, One(v), c1);
      ArmKept(k.e, t.when, q, false, v, r.c);
    }
  }

  /** A stopped branch takes the arm it had taken: when is not asked again. */
  lemma ArmKept(e: Env, when: nat, q: Path, verdict: bool, v: Value, c: Cfg)
    requires q !in c.s.arm
    ensures Verdict(e, when, q, v, Unhalted(AfterArm(q, verdict, Res(Halted(false), c)).c)) == (verdict, Unhalted(c))
  {
    assert c.s.arm[q := verdict] - {q} == c.s.arm;
  }

  lemma {:induction false} IterateContinues(t: Target, id: NodeId, k: Frame, v: Value, c: Cfg)
    requires t.Iterate?
    ensures var r := RunIterate(t, id, k, v, c);
      Continues(r, RunIterate(t, id, k, v, Unhalted(r.c)), RunIterate(t, id, k, v, Unhalted(c)))
    decreases t, 0, 0
  {
    var q := OwnerPath(k, id);
    var (at, c1) := TakePosition(q, v, c);
    var c2 := Enter(k.e, t.scope, q, c1);
    var l := Passes(t, id, k, at, c2);
    ScopesUnhalted(k.e, t.scope, q, c1);
    ScopesUnhalted(k.e, t.scope, q, l.c);
    PassesContinue(t, id, k, at, c2);
    if l.out.Halted? {
      assert Marked(q);
      PositionKept(k.e, t.scope, q, v, l.pass, l.carry, l.c);
      assert Passes(t, id, k, IterCursor(l.pass, l.carry, Some(false)), Unhalted(l.c)) == Loop(t, id, k, l.pass, l.carry, Unhalted(l.c));
    }
  }

  /** A suspended iterate finds its pass, its carried value and its scope again. */
  lemma PositionKept(e: Env, scope: Option<Scope>, q: Path, v: Value, pass: nat, carry: Value, c: Cfg)
    requires q !in c.s.iter
    requires scope.Some? ==> |c.w.scopes| > 0 && q !in c.s.scope
    ensures var (at, c1) := TakePosition(q, v, Unhalted(KeepPosition(q, pass, carry, Suspend(e, scope, q, c))));
      at == IterCursor(pass, carry, Some(false)) && Enter(e, scope, q, c1) == Unhalted(c)
  {
    var c3 := Suspend(e, scope, q, c);
    var c4 := Unhalted(KeepPosition(q, pass, carry, c3));
    assert c4.s.iter - {q} == c3.s.iter;
    assert TakePosition(q, v, c4).1 == Unhalted(c3);
    EnterSuspended(e, scope, q, c);
  }

  lemma {:induction false} PassesContinue(t: Target, id: NodeId, k: Frame, at: IterCursor, c: Cfg)
    requires t.Iterate?
    ensures var l := Passes(t, id, k, at, c);
      var whole := Passes(t, id, k, at, Unhalted(c));
      LoopsOn(t, id, k, l, whole)
    decreases t.body, |t.body.nodes| + 2, k.e.bound + 1, 0
  {
    var (done, c1) := if at.done.None? then UntilHolds(k.e, t.until, at.carry, c) else (at.done.value, c);
    if !done {
      LoopContinues(t, id, k, at.pass, at.carry, c1);
    }
  }

  lemma HoldsItself(s: Saved, p: Path)
    ensures p in s.chain ==> s.HoldsUnder(p)
  {
    assert Under(p, p);
  }

  /** How a loop resumed from l's cursor relates to the loop without a halt. */
  ghost predicate LoopsOn(t: Target, id: NodeId, k: Frame, l: LoopRes, whole: LoopRes)
    requires t.Iterate?
  {
    if l.out.Halted? then Loop(t, id, k, l.pass, l.carry, Unhalted(l.c)) == whole
    else LoopRes(l.out, l.pass, l.carry, Unhalted(l.c)) == whole
  }

  /** A loop goes on in the pass, and with the value, its cursor holds. */
  lemma {:induction false} LoopContinues(t: Target, id: NodeId, k: Frame, pass: nat, carry: Value, c: Cfg)
    requires t.Iterate?
    ensures LoopsOn(t, id, k, Loop(t, id, k, pass, carry, c), Loop(t, id, k, pass, carry, Unhalted(c)))
    decreases t.body, |t.body.nodes| + 2, k.e.bound - pass, 0
  {
    var q := OwnerPath(k, id);
    if t.maxIters.Some? && pass >= t.maxIters.value {
    } else if c.h.Signaled() {
    } else if ShortcutEnds(k, q, pass, c) {
    } else if pass >= k.e.bound {
    } else {
      var whole := RunFlow(t.body, k.e, Descend(id, "body"), PassPath(q, pass), k.regions, One(carry), Unhalted(c));
      var r := RunFlow(t.body, k.e, Descend(id, "body"), PassPath(q, pass), k.regions, One(carry), c);
      RunFlowContinues(t.body, k.e, Descend(id, "body"), PassPath(q, pass), k.regions, One(carry), c);
      assert Loop(t, id, k, pass, carry, Unhalted(c)) == AfterPass(t, id, k, pass, carry, whole);
      if r.out.Halted? {
        HoldsItself(r.c.s, PassPath(q, pass));
        assert !ShortcutEnds(k, q, pass, Unhalted(r.c));
      } else {
        AfterPassContinues(t, id, k, pass, carry, r);
      }
    }
  }

  lemma {:induction false} AfterPassContinues(t: Target, id: NodeId, k: Frame, pass: nat, carry: Value, r: Res)
    requires t.Iterate? && pass < k.e.bound && !r.out.Halted?
    ensures LoopsOn(t, id, k, AfterPass(t, id, k, pass, carry, r), AfterPass(t, id, k, pass, carry, Res(r.out, Unhalted(r.c))))
    decreases t.body, |t.body.nodes| + 2, k.e.bound - pass - 1, 1
  {
    if r.out.Done? {
      var (done, c1) := UntilHolds(k.e, t.until, r.out.value, r.c);
      if !done {
        LoopContinues(t, id, k, pass + 1, r.out.value, c1);
      }
    }
  }
}
