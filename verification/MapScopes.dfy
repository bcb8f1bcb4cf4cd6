/** What checkpoints keep of a .map item on its way: its scope as its body last wrote it, whether its
    guard had admitted it, and what a save or a failure leaves of its merge. */
module MapScopes {
  import opened Wrappers
  import opened MapItems

  ghost predicate NoCrash(steps: seq<Step>) {
    forall i | 0 <= i < |steps| :: !steps[i].CrashAndResume?
  }

  /** No step is item k's, and none is a crash. */
  ghost predicate Others(steps: seq<Step>, k: Key) {
    forall i | 0 <= i < |steps| :: !steps[i].CrashAndResume? && (OfItem(steps[i]) ==> steps[i].key != k)
  }

  // ----- an item's scope -----

  /** The scope item k had, after one more of its steps: its projection or its body's last write, from
      its start on, until it is merged, refused or recorded as failed. A strict map's item that raised
      keeps it, unless only its merge was owed. */
  function ScopeAfter(m: Map, owed: bool, before: Option<Value>, a: Step): Option<Value> {
    match a
    case Start(_, projected) => if before.None? then Some(projected) else before
    case Work(_, scope) => Some(scope)
    case Refuse(_) => None
    case BodyFails(_) => if m.strict then before else None
    case MergeAndSave(_) => None
    case RecordFailure(_) => if m.strict && !owed then before else None
    case _ => before
  }

  /** The scope item k has after these steps of a map that continues from a snapshot, by what its
      projection and its body did. */
  function LastScope(m: Map, snap: Snap, k: Key, steps: seq<Step>): Option<Value> {
    if steps == [] then if k in snap.scopes then Some(snap.scopes[k]) else None
    else
      var before := LastScope(m, snap, k, steps[..|steps| - 1]);
      var a := steps[|steps| - 1];
      if OfItem(a) && a.key == k then ScopeAfter(m, k in snap.done && !snap.done[k].merged, before, a) else before
  }

  /** A checkpoint taken now holds this scope of item k. */
  ghost predicate Holds(s: Sys, k: Key, scope: Option<Value>) {
    var held := s.saved + s.live;
    if scope.Some? then k in held && held[k] == scope.value else k !in held
  }

  lemma EarlyHolds(m: Map, s: Sys, a: Step, owed: bool, before: Option<Value>)
    requires Early(a) && Enabled(m, s, a) && PhaseOk(m, s, a.key, s.phase[a.key]) && Holds(s, a.key, before)
    ensures Holds(Apply(m, s, a), a.key, ScopeAfter(m, owed, before, a))
  {}

  lemma {:induction false} BodilyHolds(m: Map, s: Sys, a: Step, owed: bool, before: Option<Value>)
    requires Bodily(a) && Enabled(m, s, a) && PhaseOk(m, s, a.key, s.phase[a.key]) && Holds(s, a.key, before)
    requires ScopesKept(s.done, s.saved + s.live, s.left)
    ensures Holds(Apply(m, s, a), a.key, ScopeAfter(m, owed, before, a))
  {
    if a.TakeSaved? {
      assert a.key in s.saved + s.live;
    }
  }

  lemma MergeHolds(m: Map, s: Sys, a: Step, owed: bool, before: Option<Value>)
    requires OfItem(a) && !Early(a) && !Bodily(a) && !a.RecordFailure?
    requires Enabled(m, s, a) && PhaseOk(m, s, a.key, s.phase[a.key]) && Holds(s, a.key, before)
    ensures Holds(Apply(m, s, a), a.key, ScopeAfter(m, owed, before, a))
  {}

  lemma FailureHolds(m: Map, s: Sys, k: Key, owed: bool, before: Option<Value>)
    requires k in s.phase && s.phase[k].Failing? && s.phase[k].late == owed && Holds(s, k, before) && k !in s.saved
    ensures Holds(FailedFor(m, s, k), k, ScopeAfter(m, owed, before, RecordFailure(k)))
  {}

  /** What a checkout saved for an item is gone once its merge was tried. */
  ghost predicate Taken(s: Sys, k: Key) {
    k in s.phase && (s.phase[k].Saving? || s.phase[k].Failing?) ==> k !in s.saved
  }

  lemma {:induction false} StepTakes(m: Map, s: Sys, a: Step, k: Key)
    requires Inv(m, s) && Enabled(m, s, a) && !a.CrashAndResume? && Taken(s, k)
    ensures Taken(Apply(m, s, a), k)
  {
    if OfItem(a) && a.key != k {
      Frame(m, s, a, k);
    } else if OfItem(a) {
      assert PhaseOk(m, s, k, s.phase[k]);
      OwnStepTakes(m, s, a);
    }
  }

  lemma OwnStepTakes(m: Map, s: Sys, a: Step)
    requires OfItem(a) && Enabled(m, s, a) && a.key in s.phase && Taken(s, a.key) && PhaseOk(m, s, a.key, s.phase[a.key])
    ensures Taken(Apply(m, s, a), a.key)
  {}

  lemma {:induction false} StepHolds(m: Map, s: Sys, a: Step, k: Key, owed: bool, before: Option<Value>)
    requires Inv(m, s) && Enabled(m, s, a) && !a.CrashAndResume? && Carries(s, k, owed) && Taken(s, k) && Holds(s, k, before)
    ensures Holds(Apply(m, s, a), k, if OfItem(a) && a.key == k then ScopeAfter(m, owed, before, a) else before)
  {
    if OfItem(a) && a.key != k {
      Frame(m, s, a, k);
    } else if OfItem(a) {
      assert PhaseOk(m, s, k, s.phase[k]);
      if Early(a) {
        EarlyHolds(m, s, a, owed, before);
      } else if Bodily(a) {
        BodilyHolds(m, s, a, owed, before);
      } else if a.RecordFailure? {
        FailureHolds(m, s, k, owed, before);
      } else {
        MergeHolds(m, s, a, owed, before);
      }
    }
  }

  /** At every moment of a run the scope a checkpoint holds of an item is the one its projection made or
      its body last wrote, from its start until it is merged, refused or failed: also when the halt or
      its own failure stopped it. */
  lemma {:induction false} ScopeIsLastWritten(m: Map, snap: Snap, commits: set<Snap>, steps: seq<Step>, k: Key)
    requires Consistent(m, snap) && snap.done.Keys <= m.keys && CommitsOk(m, commits)
    requires From(m, Checkout(m, snap, commits), steps).Some? && NoCrash(steps)
    ensures var s := From(m, Checkout(m, snap, commits), steps).value;
      var scopes := s.saved + s.live;
      && Inv(m, s) && Taken(s, k)
      && match LastScope(m, snap, k, steps)
         case Some(v) => k in scopes && scopes[k] == v
         case None => k !in scopes
  {
    if steps == [] {
      CheckoutKeeps(m, snap, commits);
    } else {
      var front, a := steps[..|steps| - 1], steps[|steps| - 1];
      var s := From(m, Checkout(m, snap, commits), front).value;
      ScopeIsLastWritten(m, snap, commits, front, k);
      RunCarries(m, snap, commits, front, k);
      StepKeeps(m, s, a);
      StepTakes(m, s, a, k);
      StepHolds(m, s, a, k, Owes(snap, k), LastScope(m, snap, k, front));
    }
  }

  /** What is merged of an item is what its body last wrote. */
  lemma {:induction false} MergesLastWrite(m: Map, snap: Snap, commits: set<Snap>, steps: seq<Step>, k: Key)
    requires Consistent(m, snap) && snap.done.Keys <= m.keys && CommitsOk(m, commits)
    requires From(m, Checkout(m, snap, commits), steps).Some? && NoCrash(steps)
    requires Enabled(m, From(m, Checkout(m, snap, commits), steps).value, MergeAndSave(k))
    ensures LastScope(m, snap, k, steps).Some?
    ensures var s := From(m, Checkout(m, snap, commits), steps).value;
      var t := Apply(m, s, MergeAndSave(k));
      var scope := LastScope(m, snap, k, steps).value;
      && t.parent == m.merge(s.parent, scope) && t.merges == s.merges + [Merge(k, scope)]
      && t.done == s.done[k := Record(Ok(s.phase[k].value), true)] && k !in t.saved + t.live
  {
    ScopeIsLastWritten(m, snap, commits, steps, k);
    var s := From(m, Checkout(m, snap, commits), steps).value;
    assert PhaseOk(m, s, k, s.phase[k]);
    assert k in s.saved + s.live;
  }

  // ----- other items' steps -----

  lemma {:induction false} OthersLeave(m: Map, s: Sys, others: seq<Step>, k: Key)
    requires Others(others, k) && From(m, s, others).Some?
    ensures SameAt(s, From(m, s, others).value, k)
    ensures s.halted ==> From(m, s, others).value.halted
    ensures SetHalt !in others ==> From(m, s, others).value.halted == s.halted
    ensures s.commits <= From(m, s, others).value.commits
  {
    if others != [] {
      var front, a := others[..|others| - 1], others[|others| - 1];
      OthersLeave(m, s, front, k);
      OneLeaves(m, From(m, s, front).value, a, k);
    }
  }

  lemma {:induction false} OneLeaves(m: Map, s: Sys, a: Step, k: Key)
    requires Enabled(m, s, a) && !a.CrashAndResume? && (OfItem(a) ==> a.key != k)
    ensures SameAt(s, Apply(m, s, a), k) && s.commits <= Apply(m, s, a).commits
    ensures s.halted ==> Apply(m, s, a).halted
    ensures !a.SetHalt? ==> Apply(m, s, a).halted == s.halted
  {
    if OfItem(a) {
      Frame(m, s, a, k);
      OneCommits(m, s, a);
    }
  }

  lemma OneCommits(m: Map, s: Sys, a: Step)
    requires Enabled(m, s, a) && OfItem(a)
    ensures s.commits <= Apply(m, s, a).commits && Apply(m, s, a).halted == s.halted
  {}

  /** An item that a snapshot holds with a scope and not as completed waits, whatever the others do.
      Unless the halt is set it continues with that scope, without its guard and also under a cut. */
  lemma {:induction false} SavedItemContinues(m: Map, snap: Snap, commits: set<Snap>, k: Key, others: seq<Step>, projected: Value)
    requires Consistent(m, snap) && snap.done.Keys <= m.keys && CommitsOk(m, commits)
    requires k in m.keys && k !in snap.done && k in snap.scopes
    requires Others(others, k) && From(m, Checkout(m, snap, commits), others).Some?
    ensures var t := From(m, Checkout(m, snap, commits), others).value;
      && t.phase.Keys == m.keys && t.phase[k].Waiting? && !Enabled(m, t, SkipCut(k))
      && (SetHalt !in others ==>
            && Enabled(m, t, Start(k, projected))
            && var u := Apply(m, t, Start(k, projected));
               u.phase == t.phase[k := Phase.Running] && k in u.live && u.live[k] == snap.scopes[k])
  {
    var r := Checkout(m, snap, commits);
    CheckoutKeeps(m, snap, commits);
    StaysConsistent(m, r, others);
    OthersLeave(m, r, others, k);
  }

  /** An item with a scope that had not completed when a checkpoint was taken, by whomever: after a
      resume from it the item waits, whatever the others do. Unless the halt is set again it then
      continues with the scope its body last wrote, and its guard is not asked: also when the map
      fast-forwards. */
  lemma {:induction false} ResumedItemContinues(m: Map, snap: Snap, commits: set<Snap>, steps: seq<Step>, k: Key,
                                                scope: Value, others: seq<Step>, projected: Value)
    requires Consistent(m, snap) && snap.done.Keys <= m.keys && CommitsOk(m, commits)
    requires From(m, Checkout(m, snap, commits), steps).Some? && NoCrash(steps)
    requires var s := From(m, Checkout(m, snap, commits), steps).value;
      && k in m.keys && k !in s.done && LastScope(m, snap, k, steps) == Some(scope)
      && From(m, Apply(m, Apply(m, s, Checkpoint), CrashAndResume(Capture(s))), others).Some? && Others(others, k)
    ensures var s := From(m, Checkout(m, snap, commits), steps).value;
      var t := From(m, Apply(m, Apply(m, s, Checkpoint), CrashAndResume(Capture(s))), others).value;
      && t.phase.Keys == m.keys && t.phase[k].Waiting? && !Enabled(m, t, SkipCut(k))
      && (SetHalt !in others ==>
            && Enabled(m, t, Start(k, projected))
            && var u := Apply(m, t, Start(k, projected));
               u.phase == t.phase[k := Phase.Running] && k in u.live && u.live[k] == scope)
  {
    ScopeIsLastWritten(m, snap, commits, steps, k);
    var s := From(m, Checkout(m, snap, commits), steps).value;
    StepKeeps(m, s, Checkpoint);
    SavedItemContinues(m, Capture(s), Apply(m, s, Checkpoint).commits, k, others, projected);
  }
}
