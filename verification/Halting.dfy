/** What a halt does: once it is set in a verb that does not look at it, the run finishes what is
    running, closes it, and starts nothing. */
module Halting {
  import opened Wrappers
  import opened NodeIds
  import opened FlowModel
  import opened Engine
  import opened Progress
  import opened Transparency
  import opened Moments
  import Sessions

  /** A call that closes something: a merge, until's verdict on a completed pass, or the input a
      stopped chain leaves for its next step. */
  predicate Closes(x: Event) { x.callee.Merge? || x.callee.Until? || x.callee.Project? }

  ghost predicate Closing(a: World, b: World) {
    Extends(a, b) && forall j | |a.log| <= j < |b.log| :: Closes(b.log[j])
  }

  /** c made the calls of w up to and with the i-th, then only closing ones, with the halt set. */
  ghost predicate Wound(c: Cfg, w: World, i: nat) {
    && i < |w.log| && i < |c.w.log| && c.w.log[..i + 1] == w.log[..i + 1]
    && (forall j | i < j < |c.w.log| :: Closes(c.w.log[j]))
    && c.h == In(0, false)
  }

  ghost predicate Winds(r: Res, w: World, i: nat) {
    (r.out.Done? || r.out == Halted(false)) && Wound(r.c, w, i)
  }

  ghost predicate LoopWinds(l: LoopRes, w: World, i: nat) {
    (l.out.Done? || l.out == Halted(false)) && Wound(l.c, w, i)
  }

  /** Closing what is running keeps it wound down, also as part of a longer run. */
  lemma WoundOn(c: Cfg, d: Cfg, v: World, w: World, i: nat)
    requires Wound(c, v, i) && Extends(v, w) && Closing(c.w, d.w) && d.h == In(0, false)
    ensures Wound(d, w, i)
  {
    assert w.log[..|v.log|][..i + 1] == w.log[..i + 1];
    assert d.w.log[..|c.w.log|][..i + 1] == d.w.log[..i + 1];
    forall j | i < j < |d.w.log| ensures Closes(d.w.log[j]) {
      if j < |c.w.log| {
        assert d.w.log[..|c.w.log|][j] == c.w.log[j];
      }
    }
  }

  lemma ClosingNothing(w: World)
    ensures Closing(w, w)
  {
    assert w.log[..|w.log|] == w.log;
  }

  lemma ArmWound(q: Path, verdict: bool, r: Res, w: World, i: nat)
    requires Winds(r, w, i)
    ensures Winds(AfterArm(q, verdict, r), w, i)
  {}

  lemma ClosingLeave(e: Env, scope: Option<Scope>, q: Path, r: Res)
    requires r.c.h == In(0, false)
    ensures var d := AfterCall(e, scope, q, r);
      Closing(r.c.w, d.c.w) && d.c.h == In(0, false) && d.out == r.out
  {}

  lemma ClosingPasses(e: Env, scope: Option<Scope>, q: Path, l: LoopRes)
    requires l.c.h == In(0, false)
    ensures var d := AfterPasses(e, scope, q, l);
      Closing(l.c.w, d.c.w) && d.c.h == In(0, false) && d.out == l.out
  {}

  lemma ClosingUntil(e: Env, until: Option<nat>, carry: Value, c: Cfg)
    requires c.h == In(0, false)
    ensures var (x, d) := UntilHolds(e, until, carry, c);
      Closing(c.w, d.w) && d.h == In(0, false)
  {}

  lemma ClosingMove(f: Flow, k: Frame, index: nat, prev: Value, c: Cfg)
    requires index < |f.nodes| && c.h == In(0, false)
    ensures var d := MoveTo(f, k, index, prev, c).c;
      Closing(c.w, d.w) && d.h == In(0, false)
  {}

  lemma {:induction false} FlowWinds(f: Flow, e: Env, context: Context, path: Path, regions: seq<Region>, input: Inputs, c: Cfg, i: nat)
    requires VerbAt(c.w, RunFlow(f, e, context, path, regions, input, Unhalted(c)).c.w, i)
    ensures var w := RunFlow(f, e, context, path, regions, input, Unhalted(c)).c.w;
      Made(c.w) < Moment(w, i) && Winds(RunFlow(f, e, context, path, regions, input, Set(c, Moment(w, i), false)), w, i)
    decreases f, |f.nodes| + 1, 0
  {
    var k := Frame(e, context, path, regions + RegionOf(f), input);
    if path !in c.s.chain {
      WalkWinds(f, k, None, 0, None, c, i);
    } else {
      var cursor := c.s.chain[path];
      var c1 := c.(s := c.s.(chain := c.s.chain - {path}));
      var at := IndexOf(Ids(context, Keys(f)), cursor.step);
      WalkWinds(f, k, Some(At(at, cursor)), at, if cursor.Pending? then Some(cursor.prev) else None, c1, i);
    }
  }

  lemma {:induction false} WalkWinds(f: Flow, k: Frame, at: Option<At>, index: nat, last: Option<Value>, c: Cfg, i: nat)
    requires index <= |f.nodes|
    requires VerbAt(c.w, Walk(f, k, at, index, last, Unhalted(c)).c.w, i)
    ensures var w := Walk(f, k, at, index, last, Unhalted(c)).c.w;
      Made(c.w) < Moment(w, i) && Winds(Walk(f, k, at, index, last, Set(c, Moment(w, i), false)), w, i)
    decreases f, |f.nodes| - index, 0
  {
    var whole := Walk(f, k, at, index, last, Unhalted(c));
    WalkExtends(f, k, at, index, last, Unhalted(c));
    MomentLate(c.w, whole.c.w, i);
    var node := f.nodes[index];
    if !Rerun(at) && !node.conclude && FastForward(k.regions, c.w.signals) {
      WalkWinds(f, k, None, index + 1, last, c, i);
    } else {
      var (inputs, d) := InputsAt(k, at, index, node, last, Unhalted(c));
      InputsSet(k, at, index, node, last, c, Moment(whole.c.w, i), false);
      QuietInputs(k, at, index, node, last, Unhalted(c));
      StepExtends(f, k, index, inputs, d);
      VerbBetween(c.w, d.w, whole.c.w, whole.c.w, i);
      StepWinds(f, k, index, inputs, d, i);
    }
  }

  lemma {:induction false} StepWinds(f: Flow, k: Frame, index: nat, inputs: Inputs, c: Cfg, i: nat)
    requires index < |f.nodes|
    requires VerbAt(c.w, WalkStep(f, k, index, inputs, Unhalted(c)).c.w, i)
    ensures var w := WalkStep(f, k, index, inputs, Unhalted(c)).c.w;
      Made(c.w) < Moment(w, i) && Winds(WalkStep(f, k, index, inputs, Set(c, Moment(w, i), false)), w, i)
    decreases f, |f.nodes| - index - 1, 2
  {
    var whole := WalkStep(f, k, index, inputs, Unhalted(c));
    var id := IdAt(k.context, Keys(f), index);
    var w := RunNode(f.nodes[index], id, k, inputs, Unhalted(c));
    StepExtends(f, k, index, inputs, Unhalted(c));
    MomentLate(c.w, whole.c.w, i);
    NodeExtends(f.nodes[index], id, k, inputs, Unhalted(c));
    StepThenRest(f, k, index, inputs, Unhalted(c));
    if i < |w.c.w.log| {
      MomentEarly(w.c.w, whole.c.w, i);
      NodeWinds(f.nodes[index], id, k, inputs, c, i);
      var r := RunNode(f.nodes[index], id, k, inputs, Set(c, Moment(whole.c.w, i), false));
      AfterWound(f, k, index, inputs, r, w.c.w, whole.c.w, i);
    } else {
      MomentLate(w.c.w, whole.c.w, i);
      NodeLater(f.nodes[index], id, k, inputs, c, Moment(whole.c.w, i), false);
      WalkWinds(f, k, None, index + 1, Some(w.out.value), w.c, i);
    }
  }

  /** Without a halt a chain goes on past a step that completed. */
  lemma StepThenRest(f: Flow, k: Frame, index: nat, inputs: Inputs, c: Cfg)
    requires index < |f.nodes| && c.h.Never?
    ensures var w := RunNode(f.nodes[index], IdAt(k.context, Keys(f), index), k, inputs, c);
      var whole := WalkStep(f, k, index, inputs, c);
      && whole == (if w.out.Done? then Walk(f, k, None, index + 1, Some(w.out.value), w.c) else w)
      && Extends(w.c.w, whole.c.w)
  {
    var id := IdAt(k.context, Keys(f), index);
    var w := RunNode(f.nodes[index], id, k, inputs, c);
    assert NodeOk(c, w, OwnerPath(k, id));
    if w.out.Done? {
      WalkExtends(f, k, None, index + 1, Some(w.out.value), w.c);
    }
  }

  /** A chain whose step wound down stops there, or completes if the step was its last. */
  lemma AfterWound(f: Flow, k: Frame, index: nat, inputs: Inputs, r: Res, v: World, w: World, i: nat)
    requires index < |f.nodes| && Winds(r, v, i) && Extends(v, w)
    ensures Winds(AfterStep(f, k, index, inputs, r), w, i)
  {
    var d := AfterStep(f, k, index, inputs, r);
    ClosingNothing(r.c.w);
    match r.out
    case Halted(_) => WoundOn(r.c, d.c, v, w, i);
    case Done(x) =>
      if index + 1 < |f.nodes| {
        ClosingMove(f, k, index + 1, x, r.c);
        assert d == MoveTo(f, k, index + 1, x, r.c);
      } else {
        assert d == Walk(f, k, None, index + 1, Some(x), r.c);
      }
      WoundOn(r.c, d.c, v, w, i);
  }

  lemma {:induction false} NodeWinds(node: Node, id: NodeId, k: Frame, inputs: Inputs, c: Cfg, i: nat)
    requires VerbAt(c.w, RunNode(node, id, k, inputs, Unhalted(c)).c.w, i)
    ensures var w := RunNode(node, id, k, inputs, Unhalted(c)).c.w;
      Made(c.w) < Moment(w, i) && Winds(RunNode(node, id, k, inputs, Set(c, Moment(w, i), false)), w, i)
    decreases node, 0, 0
  {
    var w := RunNode(node, id, k, inputs, Unhalted(c)).c.w;
    NodeExtends(node, id, k, inputs, Unhalted(c));
    MomentLate(c.w, w, i);
    match node.target
    case Step(verb) => assert w.log[..i] == c.w.log;
    case Call(body, scope) => CallWinds(body, scope, id, k, inputs, c, i);
    case Branch(_, _, _) => BranchWinds(node.target, id, k, First(k.e.u, inputs), c, i);
    case Iterate(_, _, _, _) => IterateWinds(node.target, id, k, First(k.e.u, inputs), c, i);
  }

  lemma {:induction false} CallWinds(body: Flow, scope: Option<Scope>, id: NodeId, k: Frame, inputs: Inputs, c: Cfg, i: nat)
    requires VerbAt(c.w, RunCall(body, scope, id, k, inputs, Unhalted(c)).c.w, i)
    ensures var w := RunCall(body, scope, id, k, inputs, Unhalted(c)).c.w;
      Made(c.w) < Moment(w, i) ==> Winds(RunCall(body, scope, id, k, inputs, Set(c, Moment(w, i), false)), w, i)
    decreases body, |body.nodes| + 2, 0
  {
    var q := OwnerPath(k, id);
    var d := Enter(k.e, scope, q, Unhalted(c));
    var r := RunFlow(body, k.e, Descend(id, "call"), q, k.regions, inputs, d);
    var w := AfterCall(k.e, scope, q, r).c.w;
    QuietEnter(k.e, scope, q, Unhalted(c));
    FlowExtends(body, k.e, Descend(id, "call"), q, k.regions, inputs, d);
    QuietLeave(k.e, scope, q, r);
    VerbBetween(c.w, d.w, r.c.w, w, i);
    MadeGrows(c.w, d.w);
    EnterSet(k.e, scope, q, c, Moment(w, i), false);
    FlowWinds(body, k.e, Descend(id, "call"), q, k.regions, inputs, d, i);
    var s := RunFlow(body, k.e, Descend(id, "call"), q, k.regions, inputs, Set(d, Moment(w, i), false));
    ClosingLeave(k.e, scope, q, s);
    WoundOn(s.c, AfterCall(k.e, scope, q, s).c, r.c.w, w, i);
  }

  lemma {:induction false} BranchWinds(t: Target, id: NodeId, k: Frame, v: Value, c: Cfg, i: nat)
    requires t.Branch? && VerbAt(c.w, RunBranch(t, id, k, v, Unhalted(c)).c.w, i)
    ensures var w := RunBranch(t, id, k, v, Unhalted(c)).c.w;
      Made(c.w) < Moment(w, i) ==> Winds(RunBranch(t, id, k, v, Set(c, Moment(w, i), false)), w, i)
    decreases t, 0, 0
  {
    var q := OwnerPath(k, id);
    var w := RunBranch(t, id, k, v, Unhalted(c)).c.w;
    var (verdict, d) := Verdict(k.e, t.when, q, v, Unhalted(c));
    QuietVerdict(k.e, t.when, q, v, Unhalted(c));
    VerdictSet(k.e, t.when, q, v, c, Moment(w, i), false);
    if verdict {
      FlowExtends(t.thenFlow, k.e, Descend(id, "then"), q, k.regions, One(v), d);
      VerbBetween(c.w, d.w, w, w, i);
      MadeGrows(c.w, d.w);
      FlowWinds(t.thenFlow, k.e, Descend(id, "then"), q, k.regions, One(v), d, i);
      ArmWound(q, true, RunFlow(t.thenFlow, k.e, Descend(id, "then"), q, k.regions, One(v), Set(d, Moment(w, i), false)), w, i);
    } else if t.elseFlow.Some? {
      FlowExtends(t.elseFlow.value, k.e, Descend(id, "else"), q, k.regions, One(v), d);
      VerbBetween(c.w, d.w, w, w, i);
      MadeGrows(c.w, d.w);
      FlowWinds(t.elseFlow.value, k.e, Descend(id, "else"), q, k.regions, One(v), d, i);
      ArmWound(q, false, RunFlow(t.elseFlow.value, k.e, Descend(id, "else"), q, k.regions, One(v), Set(d, Moment(w, i), false)), w, i);
    }
  }

  lemma {:induction false} IterateWinds(t: Target, id: NodeId, k: Frame, v: Value, c: Cfg, i: nat)
    requires t.Iterate? && VerbAt(c.w, RunIterate(t, id, k, v, Unhalted(c)).c.w, i)
    ensures var w := RunIterate(t, id, k, v, Unhalted(c)).c.w;
      Made(c.w) < Moment(w, i) ==> Winds(RunIterate(t, id, k, v, Set(c, Moment(w, i), false)), w, i)
    decreases t, 0, 0
  {
    var q := OwnerPath(k, id);
    var w := RunIterate(t, id, k, v, Unhalted(c)).c.w;
    var (at, d) := IterateStart(t, q, k.e, v, Unhalted(c));
    var l := Passes(t, id, k, at, d);
    IterateEnds(t, id, k, v, Unhalted(c));
    StartSet(t, q, k.e, v, c, Moment(w, i), false);
    PassesExtend(t, id, k, at, d);
    QuietPasses(k.e, t.scope, q, l);
    VerbBetween(c.w, d.w, l.c.w, w, i);
    MadeGrows(c.w, d.w);
    PassesWind(t, id, k, at, d, i);
    var s := Passes(t, id, k, at, Set(d, Moment(w, i), false));
    ClosingPasses(k.e, t.scope, q, s);
    WoundOn(s.c, AfterPasses(k.e, t.scope, q, s).c, l.c.w, w, i);
    if Made(c.w) < Moment(w, i) {
      IterateEnds(t, id, k, v, Set(c, Moment(w, i), false));
    }
  }

  lemma {:induction false} PassesWind(t: Target, id: NodeId, k: Frame, at: IterCursor, c: Cfg, i: nat)
    requires t.Iterate? && VerbAt(c.w, Passes(t, id, k, at, Unhalted(c)).c.w, i)
    ensures var w := Passes(t, id, k, at, Unhalted(c)).c.w;
      Made(c.w) < Moment(w, i) ==> LoopWinds(Passes(t, id, k, at, Set(c, Moment(w, i), false)), w, i)
    decreases t.body, |t.body.nodes| + 2, k.e.bound + 1, 0
  {
    var (done, d) := if at.done.None? then UntilHolds(k.e, t.until, at.carry, Unhalted(c)) else (at.done.value, Unhalted(c));
    var w := Passes(t, id, k, at, Unhalted(c)).c.w;
    QuietUntil(k.e, t.until, at.carry, Unhalted(c));
    UntilSet(k.e, t.until, at.carry, c, Moment(w, i), false);
    if !done {
      LoopExtends(t, id, k, at.pass, at.carry, d);
      VerbBetween(c.w, d.w, w, w, i);
      MadeGrows(c.w, d.w);
      LoopWind(t, id, k, at.pass, at.carry, d, i);
    }
  }

  lemma {:induction false} LoopWind(t: Target, id: NodeId, k: Frame, pass: nat, carry: Value, c: Cfg, i: nat)
    requires t.Iterate? && VerbAt(c.w, Loop(t, id, k, pass, carry, Unhalted(c)).c.w, i)
    ensures var w := Loop(t, id, k, pass, carry, Unhalted(c)).c.w;
      Made(c.w) < Moment(w, i) && LoopWinds(Loop(t, id, k, pass, carry, Set(c, Moment(w, i), false)), w, i)
    decreases t.body, |t.body.nodes| + 2, k.e.bound - pass, 0
  {
    var whole := Loop(t, id, k, pass, carry, Unhalted(c));
    var path := PassPath(OwnerPath(k, id), pass);
    LoopExtends(t, id, k, pass, carry, Unhalted(c));
    MomentLate(c.w, whole.c.w, i);
    var r := RunFlow(t.body, k.e, Descend(id, "body"), path, k.regions, One(carry), Unhalted(c));
    FlowExtends(t.body, k.e, Descend(id, "body"), path, k.regions, One(carry), Unhalted(c));
    assert whole == AfterPass(t, id, k, pass, carry, r);
    PassExtends(t, id, k, pass, carry, r);
    if i < |r.c.w.log| {
      MomentEarly(r.c.w, whole.c.w, i);
      FlowWinds(t.body, k.e, Descend(id, "body"), path, k.regions, One(carry), c, i);
      var s := RunFlow(t.body, k.e, Descend(id, "body"), path, k.regions, One(carry), Set(c, Moment(whole.c.w, i), false));
      AfterPassWound(t, id, k, pass, carry, s, r.c.w, whole.c.w, i);
    } else {
      MomentLate(r.c.w, whole.c.w, i);
      FlowLater(t.body, k.e, Descend(id, "body"), path, k.regions, One(carry), c, Moment(whole.c.w, i), false);
      PassWinds(t, id, k, pass, carry, r, i);
    }
  }

  /** An iterate whose pass wound down starts no other. */
  lemma AfterPassWound(t: Target, id: NodeId, k: Frame, pass: nat, carry: Value, r: Res, v: World, w: World, i: nat)
    requires t.Iterate? && pass < k.e.bound && Winds(r, v, i) && Extends(v, w)
    ensures LoopWinds(AfterPass(t, id, k, pass, carry, r), w, i)
  {
    ClosingNothing(r.c.w);
    var l := AfterPass(t, id, k, pass, carry, r);
    if r.out.Done? {
      ClosingUntil(k.e, t.until, r.out.value, r.c);
      var (done, d) := UntilHolds(k.e, t.until, r.out.value, r.c);
      if !done {
        assert d.h.Signaled() && l == Loop(t, id, k, pass + 1, r.out.value, d);
      }
      assert l.c == d;
    } else {
      assert l.c == r.c;
    }
    WoundOn(r.c, l.c, v, w, i);
  }

  lemma {:induction false} PassWinds(t: Target, id: NodeId, k: Frame, pass: nat, carry: Value, r: Res, i: nat)
    requires t.Iterate? && pass < k.e.bound && r.c == Unhalted(r.c) && !r.out.Halted?
    requires VerbAt(r.c.w, AfterPass(t, id, k, pass, carry, r).c.w, i)
    ensures var w := AfterPass(t, id, k, pass, carry, r).c.w;
      Made(r.c.w) < Moment(w, i) ==>
        LoopWinds(AfterPass(t, id, k, pass, carry, Res(r.out, Set(r.c, Moment(w, i), false))), w, i)
    decreases t.body, |t.body.nodes| + 2, k.e.bound - pass - 1, 1
  {
    var w := AfterPass(t, id, k, pass, carry, r).c.w;
    if r.out.Done? {
      var (done, d) := UntilHolds(k.e, t.until, r.out.value, r.c);
      QuietUntil(k.e, t.until, r.out.value, r.c);
      UntilSet(k.e, t.until, r.out.value, r.c, Moment(w, i), false);
      if !done {
        LoopExtends(t, id, k, pass + 1, r.out.value, d);
        VerbBetween(r.c.w, d.w, w, w, i);
        MadeGrows(r.c.w, d.w);
        LoopWind(t, id, k, pass + 1, r.out.value, d, i);
      }
    }
  }

  /** The halt that is set in the verb that is entry n of the whole run's log, which completes. */
  function DuringVerb(whole: seq<Event>, log: seq<Event>, n: nat): Halt
    requires |log| <= n <= |whole| && Ticks(log) <= Ticks(whole[..n])
  {
    In(Ticks(whole[..n]) + 1 - Ticks(log), false)
  }

  /** A run whose halt is set in one of its verbs makes every call up to that verb's, and then only
      closing ones: no verb, no branch's when and no scope's projection is called after it. It halts,
      or it had nothing left to start. */
  lemma NothingStartsAfterTheHalt(f: Flow, e: Env, input: Inputs, snap: Sessions.Snapshot, log: seq<Event>, n: nat)
    requires var whole := Sessions.Run(f, e, input, snap, log, Never).c.w.log;
      |log| <= n < |whole| && whole[n].callee.Verb?
    ensures var whole := Sessions.Run(f, e, input, snap, log, Never).c.w.log;
      Ticks(log) <= Ticks(whole[..n]) &&
      var r := Sessions.Run(f, e, input, snap, log, DuringVerb(whole, log, n));
      && (r.out.Done? || r.out == Halted(false))
      && n < |r.c.w.log| && r.c.w.log[..n + 1] == whole[..n + 1]
      && (forall j | n < j < |r.c.w.log| :: r.c.w.log[j].callee.Merge? || r.c.w.log[j].callee.Until? || r.c.w.log[j].callee.Project?)
  {
    var c := Sessions.Checkout(snap, log, Never);
    assert Unhalted(c) == c;
    FlowWinds(f, e, Root, [], [], input, c, n);
  }

  // ----- where it stops -----

  /** A chain whose step completed with the halt set stops before the next step, which has not started
      and whose input it leaves. */
  lemma StopsPastStep(f: Flow, k: Frame, index: nat, inputs: Inputs, c: Cfg)
    requires index + 1 < |f.nodes|
    requires var r := RunNode(f.nodes[index], IdAt(k.context, Keys(f), index), k, inputs, c);
      r.out.Done? && r.c.h.In? && r.c.h.left == 0
    ensures var r := RunNode(f.nodes[index], IdAt(k.context, Keys(f), index), k, inputs, c);
      var d := WalkStep(f, k, index, inputs, c);
      && d.out == Halted(false) && k.path in d.c.s.chain
      && StopsAt(f, k, index + 1, r.out.value, r.c, d.c.s.chain[k.path])
      && d.c.w.scopes == r.c.w.scopes && d.c.w.signals == r.c.w.signals
  {}

  /** A chain whose last step completed is complete, also with the halt set. */
  lemma LastStepCompletes(f: Flow, k: Frame, index: nat, inputs: Inputs, c: Cfg)
    requires index + 1 == |f.nodes|
    requires RunNode(f.nodes[index], IdAt(k.context, Keys(f), index), k, inputs, c).out.Done?
    ensures WalkStep(f, k, index, inputs, c) == RunNode(f.nodes[index], IdAt(k.context, Keys(f), index), k, inputs, c)
  {
    var r := RunNode(f.nodes[index], IdAt(k.context, Keys(f), index), k, inputs, c);
    assert AfterStep(f, k, index, inputs, r) == Walk(f, k, None, index + 1, Some(r.out.value), r.c);
  }

  /** An iterate with the halt set starts no pass: it is over if its last pass was its last, else it
      stops at the pass it is at. */
  lemma StopsBeforePass(t: Target, id: NodeId, k: Frame, pass: nat, carry: Value, c: Cfg)
    requires t.Iterate? && c.h.In? && c.h.left == 0
    ensures Loop(t, id, k, pass, carry, c)
      == LoopRes(if t.maxIters.Some? && pass >= t.maxIters.value then Done(carry) else Halted(false), pass, carry, c)
  {}
}
