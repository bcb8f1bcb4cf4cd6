/** A top-level run, and a run resumed until it finishes. */
module TopLevel {
  import opened Wrappers
  import opened NodeIds
  import opened FlowModel
  import opened Engine
  import opened Runners
  import opened Sessions
  import MapFacts
  import Moments
  import Reference

  lemma {:induction false} CapturedAtTheTop(saved: Saved, live: Saved, left: Saved, scopes: seq<Value>)
    requires live == NOTHING.With(left)
    ensures Captured(saved, live, map[], scopes) == saved.With(left)
  {
    assert map[] + left.chain == left.chain && map[] + left.iter == left.iter;
    assert map[] + left.arm == left.arm && map[] + left.scope == left.scope;
    MapFacts.UnionEmpty((saved.scope + left.scope));
    assert Payloads(map[], scopes) == map[];
  }

  /** One run from a checked-out snapshot. A halted run writes the snapshot the engine's configuration
      holds. When a verb stopped it, that is the snapshot a checkpoint taken inside the running verb
      holds (inVerb, captured when the verb is called, before the halt is looked at). */
  method RunOnce(f: Flow, e: Env, input: Inputs, snap: Snapshot, log: seq<Event>, h: Halt)
    returns (out: Outcome, world: World, commit: Option<Snapshot>, ghost inVerb: Option<Saved>)
    ensures var r := Run(f, e, input, snap, log, h);
      out == r.out && world == r.c.w && commit == if out.Halted? then Some(Capture(r.c)) else None
    ensures out.Halted? && out.inVerb ==> inVerb == Some(commit.value.entries)
  {
    var run := new RunState(Checkout(snap, log, h));
    ghost var left;
    out, left := RunAsSubflow(f, e, Root, [], [], input, run);
    world := run.world;
    commit, inVerb := None, run.inVerb;
    if out.Halted? {
      CapturedAtTheTop(run.saved, run.live, left, run.world.scopes);
      commit := Some(Snapshot(run.world.scopes[0], run.Capture(), run.world.signals));
    }
  }

  /** Stop a run in the verb that is entry n of its log: the commit holds what a checkpoint taken in
      that verb does, after exactly the calls before it. */
  method StopInVerb(f: Flow, e: Env, input: Inputs, snap: Snapshot, log: seq<Event>, ghost n: nat, h: Halt)
    returns (commit: Snapshot, ghost inVerb: Saved)
    requires var whole := Run(f, e, input, snap, log, Never).c.w.log;
      && |log| <= n < |whole| && whole[n].callee.Verb?
      && Moments.Ticks(log) <= Moments.Ticks(whole[..n]) && h == InVerb(whole, log, n)
    ensures inVerb == commit.entries
    ensures var whole := Run(f, e, input, snap, log, Never);
      forall other :: Run(f, e, other, commit, whole.c.w.log[..n], Never) == whole
  {
    var out, world, halted;
    ghost var captured;
    out, world, halted, captured := RunOnce(f, e, input, snap, log, h);
    forall other ensures Run(f, e, other, Capture(Run(f, e, input, snap, log, h).c), Run(f, e, input, snap, log, Never).c.w.log[..n], Never) == Run(f, e, input, snap, log, Never) {
      EveryVerbSplitsTheRun(f, e, input, snap, log, n, other);
    }
    EveryVerbSplitsTheRun(f, e, input, snap, log, n, input);
    commit, inVerb := halted.value, captured.value;
  }

  /** Run a flow from its first step, resuming it from its halt checkpoint after every halt, by calls
      with any arguments, until it ends: it ends as plain evaluation of its tree on the first call's
      input does. */
  method RunUntilDone(f: Flow, e: Env, state: Value, attempts: seq<Attempt>, last: Inputs) returns (out: Outcome, world: World)
    ensures Reference.Val(out, world) == Reference.EvalFlow(f, e, [], FirstInput(attempts, last), World([state], {}, []))
  {
    var snap, log, n := Initial(state), [], 0;
    ghost var whole := RunThrough(f, e, Initial(state), [], attempts, last);
    ResumeIsTransparent(f, e, state, attempts, last);
    var commit;
    ghost var inVerb;
    while n < |attempts|
      invariant n <= |attempts|
      invariant RunThrough(f, e, snap, log, attempts[n..], last) == whole
    {
      out, world, commit, inVerb := RunOnce(f, e, attempts[n].input, snap, log, attempts[n].halt);
      assert attempts[n..][1..] == attempts[n + 1..];
      if !out.Halted? {
        return;
      }
      snap, log, n := commit.value, world.log, n + 1;
    }
    out, world, commit, inVerb := RunOnce(f, e, last, snap, log, Never);
  }
}
