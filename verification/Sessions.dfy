/** A flow run to its end across any number of halts. */
module Sessions {
  import opened NodeIds
  import opened FlowModel
  import opened Engine
  import opened Reference
  import Moments
  import Progress
  import ResumedInputs
  import Transparency

  /** What a commit holds of a run: the root scope, the child scopes and cursors by path, and the
      signals that were set. */
  datatype Snapshot = Snapshot(root: Value, entries: Saved, signals: set<string>)

  function Initial(state: Value): Snapshot { Snapshot(state, NOTHING, {}) }

  /** The configuration a run starts in from a checked-out snapshot: its root state, its entries,
      and its signals set again. */
  function Checkout(snap: Snapshot, log: seq<Event>, h: Halt): Cfg {
    Cfg(snap.entries, World([snap.root], snap.signals, log), h)
  }

  function Capture(c: Cfg): Snapshot
    requires |c.w.scopes| > 0
  {
    Snapshot(c.w.scopes[0], c.s, c.w.signals)
  }

  /** One top-level run. */
  function Run(f: Flow, e: Env, input: Inputs, snap: Snapshot, log: seq<Event>, h: Halt): (r: Res)
    ensures |r.c.w.scopes| == 1
  {
    RunFlow(f, e, Root, [], [], input, Checkout(snap, log, h))
  }

  /** One call of run(): what it is called with, and the halt it meets. */
  datatype Attempt = Attempt(input: Inputs, halt: Halt)

  /** Run as the attempts say: each halted run is resumed from its halt checkpoint, by a call with any
      arguments; when they are used up the last run, called with `last`, is left to finish. */
  function RunThrough(f: Flow, e: Env, snap: Snapshot, log: seq<Event>, attempts: seq<Attempt>, last: Inputs): (r: Res)
    ensures |r.c.w.scopes| == 1
    decreases |attempts|
  {
    if attempts == [] then Run(f, e, last, snap, log, Never)
    else
      var r := Run(f, e, attempts[0].input, snap, log, attempts[0].halt);
      if r.out.Halted? then RunThrough(f, e, Capture(r.c), r.c.w.log, attempts[1..], last) else r
  }

  /** What the first of these runs is called with. */
  function FirstInput(attempts: seq<Attempt>, last: Inputs): Inputs {
    if attempts == [] then last else attempts[0].input
  }

  /** Checking out a halt checkpoint gives back the whole configuration the run halted in. */
  lemma CaptureRestores(c: Cfg)
    requires |c.w.scopes| == 1
    ensures Checkout(Capture(c), c.w.log, Never) == Transparency.Unhalted(c)
  {
    assert [c.w.scopes[0]] == c.w.scopes;
  }

  /** What a halted run is resumed with does not matter: run() goes on from the checkpoint alone. */
  lemma ResumeIgnoresInput(f: Flow, e: Env, input: Inputs, snap: Snapshot, log: seq<Event>, h: Halt, other: Inputs, next: Halt)
    requires Run(f, e, input, snap, log, h).out.Halted?
    ensures var c := Run(f, e, input, snap, log, h).c;
      Run(f, e, other, Capture(c), c.w.log, next) == Run(f, e, input, Capture(c), c.w.log, next)
  {
    var c := Run(f, e, input, snap, log, h).c;
    ResumedInputs.FlowLeavesStarted(f, e, Root, [], [], input, Checkout(snap, log, h));
    ResumedInputs.ResumedIgnoresInput(f, e, Root, [], [], other, input, Checkout(Capture(c), c.w.log, next));
  }

  /** From any checked-out snapshot, halting and resuming any number of times, with any arguments,
      gives the result, the state, the saved entries left over and the calls into user code of the
      first run left uninterrupted. */
  lemma {:induction false} HaltsAreInvisible(f: Flow, e: Env, snap: Snapshot, log: seq<Event>, attempts: seq<Attempt>, last: Inputs)
    ensures var r := RunThrough(f, e, snap, log, attempts, last);
      Res(r.out, Transparency.Unhalted(r.c)) == Run(f, e, FirstInput(attempts, last), snap, log, Never)
    decreases |attempts|
  {
    if attempts != [] {
      var input, h := attempts[0].input, attempts[0].halt;
      var r := Run(f, e, input, snap, log, h);
      Transparency.RunFlowContinues(f, e, Root, [], [], input, Checkout(snap, log, h));
      if r.out.Halted? {
        CaptureRestores(r.c);
        HaltsAreInvisible(f, e, Capture(r.c), r.c.w.log, attempts[1..], last);
        ResumeIgnoresInput(f, e, input, snap, log, h, FirstInput(attempts[1..], last), Never);
      }
    }
  }

  /** A fresh run, halted and resumed any number of times with any arguments, has the meaning of its
      tree on the input it was first called with: the result and the state of plain evaluation, every
      verb, predicate, projection and merge called exactly as often and in the same order, and nothing
      saved left over. */
  lemma ResumeIsTransparent(f: Flow, e: Env, state: Value, attempts: seq<Attempt>, last: Inputs)
    ensures var r := RunThrough(f, e, Initial(state), [], attempts, last);
      var v := EvalFlow(f, e, [], FirstInput(attempts, last), World([state], {}, []));
      r.out == v.out && r.c.w == v.w && (r.out.Done? ==> r.c.s == NOTHING)
  {
    HaltsAreInvisible(f, e, Initial(state), [], attempts, last);
    FreshFlow(f, e, Root, [], [], FirstInput(attempts, last), Checkout(Initial(state), [], Never));
  }

  /** Wherever a run stops, the calls it made are the first calls of the uninterrupted run, and the
      resumed run, whatever it is called with, makes exactly the others: nothing that completed is
      called again. */
  lemma CheckpointSplitsTheRun(f: Flow, e: Env, input: Inputs, snap: Snapshot, log: seq<Event>, h: Halt, other: Inputs)
    ensures var r := Run(f, e, input, snap, log, h);
      var whole := Run(f, e, input, snap, log, Never).c.w.log;
      |r.c.w.log| <= |whole| && whole[..|r.c.w.log|] == r.c.w.log &&
      (r.out.Halted? ==> Run(f, e, other, Capture(r.c), r.c.w.log, Never).c.w.log == whole)
  {
    var r := Run(f, e, input, snap, log, h);
    Transparency.RunFlowContinues(f, e, Root, [], [], input, Checkout(snap, log, h));
    if r.out.Halted? {
      CaptureRestores(r.c);
      ResumeIgnoresInput(f, e, input, snap, log, h, other, Never);
      Progress.FlowExtends(f, e, Root, [], [], input, Transparency.Unhalted(r.c));
    }
  }

  /** The halt that stops a run in the verb that is entry n of the whole run's log. */
  function InVerb(whole: seq<Event>, log: seq<Event>, n: nat): Halt
    requires |log| <= n <= |whole| && Moments.Ticks(log) <= Moments.Ticks(whole[..n])
  {
    In(Moments.Ticks(whole[..n]) + 1 - Moments.Ticks(log), true)
  }

  /** For every verb a run calls there is a halt that stops the run in that verb: it has made exactly
      the calls before it, and resumed from what a checkpoint in that verb holds it makes that call
      first and then exactly the others, to the same end. */
  lemma EveryVerbSplitsTheRun(f: Flow, e: Env, input: Inputs, snap: Snapshot, log: seq<Event>, n: nat, other: Inputs)
    requires var whole := Run(f, e, input, snap, log, Never).c.w.log;
      |log| <= n < |whole| && whole[n].callee.Verb?
    ensures var whole := Run(f, e, input, snap, log, Never);
      var all := whole.c.w.log;
      Moments.Ticks(log) <= Moments.Ticks(all[..n]) &&
      var r := Run(f, e, input, snap, log, InVerb(all, log, n));
      && r.out == Halted(true) && r.c.w.log == all[..n]
      && Run(f, e, other, Capture(r.c), all[..n], Never) == whole
  {
    var c := Checkout(snap, log, Never);
    var whole := Run(f, e, input, snap, log, Never);
    assert Transparency.Unhalted(c) == c;
    Moments.FlowStops(f, e, Root, [], [], input, c, n);
    var h := InVerb(whole.c.w.log, log, n);
    var r := Run(f, e, input, snap, log, h);
    Transparency.RunFlowContinues(f, e, Root, [], [], input, Checkout(snap, log, h));
    CaptureRestores(r.c);
    ResumeIgnoresInput(f, e, input, snap, log, h, other, Never);
  }
}
