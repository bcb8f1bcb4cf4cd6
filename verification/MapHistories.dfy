/** What a .map item's state says of the steps that led to it: whether its guard admitted it, what
    ended it, and what a halt, a cut and a save mean for it. */
module MapHistories {
  import opened Wrappers
  import opened MapItems
  import opened MapScopes

  /** What Inv says of item k alone. */
  ghost predicate ItemOk(m: Map, s: Sys, k: Key) {
    k in s.phase ==> PhaseOk(m, s, k, s.phase[k]) && Taken(s, k) && (s.phase[k].Unmerged? ==> k in s.saved)
  }

  lemma {:induction false} ItemStaysOk(m: Map, snap: Snap, commits: set<Snap>, steps: seq<Step>, k: Key)
    requires Consistent(m, snap) && snap.done.Keys <= m.keys && CommitsOk(m, commits)
    requires From(m, Checkout(m, snap, commits), steps).Some? && NoCrash(steps)
    ensures var s := From(m, Checkout(m, snap, commits), steps).value;
      ItemOk(m, s, k) && s.phase.Keys == m.keys
  {
    ScopeIsLastWritten(m, snap, commits, steps, k);
    var s := From(m, Checkout(m, snap, commits), steps).value;
    if k in s.phase {
      assert PhaseOk(m, s, k, s.phase[k]);
      assert s.phase[k].Unmerged? ==> k in s.saved + s.live;
    }
  }

  // ----- the guard of an item a resumed map continues -----

  /** What became of item k's guard. */
  datatype Guard = Unasked | Asked | Admitted | Refused | Raising

  function GuardAfter(before: Guard, a: Step): Guard {
    match a
    case Start(_, _) => Asked
    case Admit(_) => Admitted
    case Refuse(_) => Refused
    case BodyFails(_) => if before.Asked? then Raising else before
    case _ => before
  }

  /** By the steps of a map in which item k had not started before. */
  function GuardOf(k: Key, steps: seq<Step>): Guard {
    if steps == [] then Unasked
    else
      var before := GuardOf(k, steps[..|steps| - 1]);
      var a := steps[|steps| - 1];
      if OfItem(a) && a.key == k then GuardAfter(before, a) else before
  }

  /** What item k's phase says of its guard, for an item that has not completed. */
  ghost predicate GuardFits(m: Map, s: Sys, k: Key, g: Guard) {
    k in s.phase ==>
      match s.phase[k]
      case Waiting => g.Unasked? && k !in s.saved
      case Asking => g.Asked?
      case Running => g.Admitted?
      case Unmerged(_) => false
      case Returned(_, _) => g.Admitted?
      case Saving(_, _, _, _, _) => g.Admitted?
      case Failing(_) => g.Admitted?
      case Interrupted => g.Admitted? || (g.Unasked? && k !in s.saved + s.live)
      case Raised => g.Admitted? || (g.Unasked? && k !in s.saved + s.live) || (g.Raising? && m.strict)
      case Over(r) => r.Fail? ==> k !in s.saved + s.live
  }

  lemma EarlyFits(m: Map, s: Sys, a: Step, g: Guard)
    requires Early(a) && Enabled(m, s, a)
    requires PhaseOk(m, s, a.key, s.phase[a.key]) && GuardFits(m, s, a.key, g)
    ensures GuardFits(m, Apply(m, s, a), a.key, GuardAfter(g, a))
  {}

  lemma BodilyFits(m: Map, s: Sys, a: Step, g: Guard)
    requires Bodily(a) && Enabled(m, s, a)
    requires PhaseOk(m, s, a.key, s.phase[a.key]) && GuardFits(m, s, a.key, g)
    ensures GuardFits(m, Apply(m, s, a), a.key, GuardAfter(g, a))
  {}

  lemma MergeFits(m: Map, s: Sys, a: Step, g: Guard)
    requires OfItem(a) && !Early(a) && !Bodily(a) && Enabled(m, s, a)
    requires PhaseOk(m, s, a.key, s.phase[a.key]) && Taken(s, a.key) && GuardFits(m, s, a.key, g)
    ensures GuardFits(m, Apply(m, s, a), a.key, GuardAfter(g, a))
  {}

  lemma {:induction false} OwnStepFits(m: Map, s: Sys, a: Step, g: Guard)
    requires OfItem(a) && Enabled(m, s, a)
    requires PhaseOk(m, s, a.key, s.phase[a.key]) && Taken(s, a.key) && GuardFits(m, s, a.key, g)
    ensures GuardFits(m, Apply(m, s, a), a.key, GuardAfter(g, a))
  {
    if Early(a) {
      EarlyFits(m, s, a, g);
    } else if Bodily(a) {
      BodilyFits(m, s, a, g);
    } else {
      MergeFits(m, s, a, g);
    }
  }

  lemma {:induction false} StepFits(m: Map, s: Sys, a: Step, k: Key, g: Guard)
    requires Enabled(m, s, a) && !a.CrashAndResume? && ItemOk(m, s, k) && GuardFits(m, s, k, g)
    ensures GuardFits(m, Apply(m, s, a), k, if OfItem(a) && a.key == k then GuardAfter(g, a) else g)
  {
    if OfItem(a) && a.key == k {
      OwnStepFits(m, s, a, g);
    } else {
      OneLeaves(m, s, a, k);
    }
  }

  /** Admit is among the steps just when the guard says so, for a guard that did not refuse. */
  ghost predicate Tells(k: Key, steps: seq<Step>, g: Guard) {
    (g.Admitted? ==> Admit(k) in steps) && (Admit(k) in steps ==> g.Admitted? || g.Refused?)
  }

  lemma StepTells(k: Key, front: seq<Step>, a: Step, g: Guard)
    requires Tells(k, front, g) && (OfItem(a) && a.key == k && a.Start? ==> g.Unasked?)
    ensures Tells(k, front + [a], if OfItem(a) && a.key == k then GuardAfter(g, a) else g)
  {}

  lemma {:induction false} GuardFollows(m: Map, snap: Snap, commits: set<Snap>, steps: seq<Step>, k: Key)
    requires Consistent(m, snap) && snap.done.Keys <= m.keys && CommitsOk(m, commits)
    requires k !in snap.done && k !in snap.scopes
    requires From(m, Checkout(m, snap, commits), steps).Some? && NoCrash(steps)
    ensures GuardFits(m, From(m, Checkout(m, snap, commits), steps).value, k, GuardOf(k, steps))
  {
    if steps != [] {
      var front, a := steps[..|steps| - 1], steps[|steps| - 1];
      GuardFollows(m, snap, commits, front, k);
      ItemStaysOk(m, snap, commits, front, k);
      StepFits(m, From(m, Checkout(m, snap, commits), front).value, a, k, GuardOf(k, front));
    }
  }

  lemma {:induction false} GuardTells(m: Map, snap: Snap, commits: set<Snap>, steps: seq<Step>, k: Key)
    requires Consistent(m, snap) && snap.done.Keys <= m.keys && CommitsOk(m, commits)
    requires k !in snap.done && k !in snap.scopes
    requires From(m, Checkout(m, snap, commits), steps).Some? && NoCrash(steps)
    ensures Tells(k, steps, GuardOf(k, steps))
  {
    if steps != [] {
      var front, a := steps[..|steps| - 1], steps[|steps| - 1];
      GuardFollows(m, snap, commits, front, k);
      GuardTells(m, snap, commits, front, k);
      StepTells(k, front, a, GuardOf(k, front));
      assert steps == front + [a];
    }
  }

  /** A resumed map does not ask the guard of an item that its snapshot holds with a scope and not as
      completed. The guard had admitted it, unless the checkpoint was taken while the guard was being
      asked, or after it raised in a strict map. */
  lemma {:induction false} AdmittedUnlessAsked(m: Map, snap: Snap, commits: set<Snap>, steps: seq<Step>, k: Key)
    requires Consistent(m, snap) && snap.done.Keys <= m.keys && CommitsOk(m, commits)
    requires k !in snap.done && k !in snap.scopes
    requires From(m, Checkout(m, snap, commits), steps).Some? && NoCrash(steps)
    requires var s := From(m, Checkout(m, snap, commits), steps).value;
      k in s.phase && k !in s.done && k in s.saved + s.live
    ensures var s := From(m, Checkout(m, snap, commits), steps).value;
      Admit(k) in steps <==> !s.phase[k].Asking? && !GuardOf(k, steps).Raising?
    ensures GuardOf(k, steps).Raising? ==> m.strict
  {
    GuardFollows(m, snap, commits, steps, k);
    GuardTells(m, snap, commits, steps, k);
    ScopeIsLastWritten(m, snap, commits, steps, k);
    var s := From(m, Checkout(m, snap, commits), steps).value;
    assert PhaseOk(m, s, k, s.phase[k]);
  }

  /** Such a run: a checkpoint is taken while the one item's guard is asked, the process crashes, and
      the resumed map runs the item's body although no guard admitted it. */
  lemma {:induction false} UnadmittedItemRuns(m: Map, k: Key, v: Value) returns (steps: seq<Step>)
    requires m.keys == {k}
    ensures After(m, steps).Some?
    ensures k in After(m, steps).value.phase && After(m, steps).value.phase[k].Running?
    ensures Admit(k) !in steps
  {
    steps := [];
    Extended(m, steps, Start(k, v));
    steps := steps + [Start(k, v)];
    steps := ResumesFrom(m, steps, k, v);
  }

  /** And in a strict map one whose guard raised. */
  lemma {:induction false} RaisedItemRuns(m: Map, k: Key, v: Value) returns (steps: seq<Step>)
    requires m.keys == {k} && m.strict
    ensures After(m, steps).Some?
    ensures k in After(m, steps).value.phase && After(m, steps).value.phase[k].Running?
    ensures BodyFails(k) in steps && Admit(k) !in steps
  {
    steps := [];
    Extended(m, steps, Start(k, v));
    steps := steps + [Start(k, v)];
    Extended(m, steps, BodyFails(k));
    steps := steps + [BodyFails(k)];
    steps := ResumesFrom(m, steps, k, v);
  }

  /** A checkpoint, a crash, a resume, and the one item's turn. */
  lemma {:induction false} ResumesFrom(m: Map, before: seq<Step>, k: Key, v: Value) returns (steps: seq<Step>)
    requires m.keys == {k} && After(m, before).Some? && Admit(k) !in before
    requires k !in After(m, before).value.done && k in After(m, before).value.live
    ensures After(m, steps).Some? && before <= steps && Admit(k) !in steps
    ensures k in After(m, steps).value.phase && After(m, steps).value.phase[k].Running?
  {
    var snap := Capture(After(m, before).value);
    steps := before;
    Extended(m, steps, Checkpoint);
    steps := steps + [Checkpoint];
    Extended(m, steps, CrashAndResume(snap));
    steps := steps + [CrashAndResume(snap)];
    Extended(m, steps, Start(k, v));
    steps := steps + [Start(k, v)];
  }

  // ----- a halt, a cut -----

  /** After the halt is set no item starts, whatever the others do: one that waits stays so or is
      interrupted, and is not recorded. */
  lemma {:induction false} HaltStartsNoItem(m: Map, s: Sys, more: seq<Step>, k: Key)
    requires k in s.phase && s.phase[k].Waiting? && k !in s.done
    requires From(m, Apply(m, s, SetHalt), more).Some? && NoCrash(more)
    ensures var t := From(m, Apply(m, s, SetHalt), more).value;
      && t.halted && k in t.phase && (t.phase[k].Waiting? || t.phase[k].Interrupted?) && k !in t.done
      && (k in t.live <==> k in s.live) && (k in t.saved <==> k in s.saved)
    ensures forall i | 0 <= i < |more| :: !(more[i].Start? && more[i].key == k)
  {
    if more != [] {
      var front, a := more[..|more| - 1], more[|more| - 1];
      HaltStartsNoItem(m, s, front, k);
      var t := From(m, Apply(m, s, SetHalt), front).value;
      if OfItem(a) && a.key == k {
        assert a.StopBefore?;
      } else {
        OneLeaves(m, t, a, k);
      }
      assert forall i | 0 <= i < |front| :: more[i] == front[i];
    }
  }

  /** After the signal of a region the map is in is set, no item starts that had not: it is skipped,
      or stopped by the halt. */
  lemma {:induction false} SignalStartsNoItem(m: Map, s: Sys, more: seq<Step>, k: Key)
    requires k in s.phase && s.phase[k].Waiting? && k !in s.saved
    requires From(m, Apply(m, s, SetSignal), more).Some? && NoCrash(more)
    ensures var t := From(m, Apply(m, s, SetSignal), more).value;
      && t.cut && k in t.phase && k !in t.saved
      && (t.phase[k].Waiting? || t.phase[k].Interrupted? || t.phase[k] == Over(Skip))
    ensures forall i | 0 <= i < |more| :: !(more[i].Start? && more[i].key == k)
  {
    if more != [] {
      var front, a := more[..|more| - 1], more[|more| - 1];
      SignalStartsNoItem(m, s, front, k);
      var t := From(m, Apply(m, s, SetSignal), front).value;
      if OfItem(a) && a.key == k {
        assert a.StopBefore? || a.SkipCut?;
      } else {
        OneLeaves(m, t, a, k);
        CutStays(m, t, a);
      }
      assert forall i | 0 <= i < |front| :: more[i] == front[i];
    }
  }

  lemma CutStays(m: Map, s: Sys, a: Step)
    requires Enabled(m, s, a) && !a.CrashAndResume? && s.cut
    ensures Apply(m, s, a).cut
  {}

  /** A cut survives a crash: a map resumed from a checkpoint taken under it skips the items that had not
      started, and one resumed from a checkpoint taken before it starts them. */
  lemma {:induction false} CutSurvivesResume(m: Map, s: Sys, k: Key, projected: Value)
    requires Inv(m, s) && k in m.keys && k !in s.done && k !in s.saved + s.live
    ensures var t := Apply(m, Apply(m, s, Checkpoint), CrashAndResume(Capture(s)));
      && !t.halted && (t.cut <==> s.cut) && k in t.phase && t.phase[k].Waiting?
      && (Enabled(m, t, SkipCut(k)) <==> s.cut) && (Enabled(m, t, Start(k, projected)) <==> !s.cut)
  {
    StepKeeps(m, s, Checkpoint);
    CheckoutKeeps(m, Capture(s), Apply(m, s, Checkpoint).commits);
  }

  // ----- a save -----

  /** The commit that follows an item's merge holds the parent with that merge, the item's record, and
      no scope of it, whatever the others do until it is written, also when only its tag fails to
      move. When the save fails the parent is what it was before the merge. */
  lemma {:induction false} SaveHoldsItsMerge(m: Map, s: Sys, k: Key, others: seq<Step>)
    requires Enabled(m, s, MergeAndSave(k)) && m.saves && k !in s.saved
    requires Others(others, k) && From(m, Apply(m, s, MergeAndSave(k)), others).Some?
    ensures var parent := m.merge(s.parent, s.live[k]);
      var saved := Snap(parent, s.done[k := Record(Ok(s.phase[k].value), true)], s.saved + (s.live - {k}), s.cut,
                        s.merges + [Merge(k, s.live[k])], s.left);
      var t := From(m, Apply(m, s, MergeAndSave(k)), others).value;
      && k !in saved.scopes && Enabled(m, t, SaveSucceeds(k)) && Enabled(m, t, SaveFails(k)) && Enabled(m, t, TagFails(k))
      && saved in Apply(m, t, SaveSucceeds(k)).commits && saved in Apply(m, t, TagFails(k)).commits
      && Apply(m, t, SaveSucceeds(k)).phase == t.phase[k := Over(Ok(s.phase[k].value))]
      && (forall a | a == SaveFails(k) || a == TagFails(k) ::
            Apply(m, t, a).parent == s.parent && Apply(m, t, a).merges == s.merges && k !in Apply(m, t, a).done)
  {
    OthersLeave(m, Apply(m, s, MergeAndSave(k)), others, k);
  }

  lemma {:induction false} SavingAlone(m: Map, s: Sys, others: seq<Step>, k: Key)
    requires Inv(m, s) && k in s.phase && s.phase[k].Saving?
    requires Others(others, k) && From(m, s, others).Some?
    ensures var t := From(m, s, others).value;
      k in t.phase && t.phase[k].Saving? && OneSaver(t.phase)
  {
    StaysConsistent(m, s, others);
    OthersLeave(m, s, others, k);
  }

  /** While an item's save is in flight no other is merged: the save's failure takes back its own merge
      and nothing else. */
  lemma {:induction false} SaveHoldsTheLock(m: Map, s: Sys, k: Key, others: seq<Step>)
    requires Inv(m, s) && k in s.phase && s.phase[k].Saving?
    requires Others(others, k) && From(m, s, others).Some?
    ensures From(m, s, others).value.parent == s.parent && From(m, s, others).value.merges == s.merges
    ensures forall i | 0 <= i < |others| :: !others[i].MergeAndSave?
  {
    if others != [] {
      var front, a := others[..|others| - 1], others[|others| - 1];
      SaveHoldsTheLock(m, s, k, front);
      SavingAlone(m, s, front, k);
      LockKeepsParent(m, From(m, s, front).value, a, k);
      assert forall i | 0 <= i < |front| :: others[i] == front[i];
    }
  }

  lemma LockKeepsParent(m: Map, s: Sys, a: Step, k: Key)
    requires Enabled(m, s, a) && !a.CrashAndResume? && (OfItem(a) ==> a.key != k)
    requires OneSaver(s.phase) && k in s.phase && s.phase[k].Saving?
    ensures Apply(m, s, a).parent == s.parent && Apply(m, s, a).merges == s.merges && !a.MergeAndSave?
  {
    assert !LockFree(s);
    assert !(a.SaveFails? || a.TagFails?);
  }

  // ----- what ended an item -----

  /** An item's phase, by what a snapshot held of it and what it did since. */
  ghost predicate Explains(m: Map, snap: Snap, steps: seq<Step>, k: Key, p: Phase) {
    match p
    case Over(Ok(v)) =>
      || (k in snap.done && snap.done[k] == Record(Ok(v), true))
      || (MergeAndSave(k) in steps && (m.saves ==> SaveSucceeds(k) in steps) && Completes(snap, steps, k, v))
    case Over(Skip) => (k in snap.done && snap.done[k].result.Skip?) || Refuse(k) in steps || SkipCut(k) in steps
    case Over(Fail) => (k in snap.done && snap.done[k].result.Fail?) || BodyFails(k) in steps || RecordFailure(k) in steps
    case Returned(v, _) => Completes(snap, steps, k, v)
    case Unmerged(v) => Completes(snap, steps, k, v)
    case Saving(v, _, _, _, _) => MergeAndSave(k) in steps && Completes(snap, steps, k, v)
    case Interrupted => SetHalt in steps
    case Raised => m.strict && (BodyFails(k) in steps || RecordFailure(k) in steps)
    case _ => true
  }

  /** Item k's body completed with v: since the snapshot, or before it. */
  ghost predicate Completes(snap: Snap, steps: seq<Step>, k: Key, v: Value) {
    BodyReturns(k, v) in steps || (k in snap.done && snap.done[k] == Record(Ok(v), false))
  }

  lemma ExplainsStill(m: Map, snap: Snap, steps: seq<Step>, a: Step, k: Key, p: Phase)
    requires Explains(m, snap, steps, k, p)
    ensures Explains(m, snap, steps + [a], k, p)
  {}

  lemma EarlyExplains(m: Map, snap: Snap, s: Sys, steps: seq<Step>, a: Step)
    requires Early(a) && Enabled(m, s, a) && Explains(m, snap, steps, a.key, s.phase[a.key])
    requires s.halted ==> SetHalt in steps
    ensures Explains(m, snap, steps + [a], a.key, Apply(m, s, a).phase[a.key])
  {}

  lemma BodilyExplains(m: Map, snap: Snap, s: Sys, steps: seq<Step>, a: Step)
    requires Bodily(a) && Enabled(m, s, a) && Explains(m, snap, steps, a.key, s.phase[a.key])
    requires a.TakeSaved? ==> a.key in s.saved
    ensures Explains(m, snap, steps + [a], a.key, Apply(m, s, a).phase[a.key])
  {}

  lemma MergeExplains(m: Map, snap: Snap, s: Sys, steps: seq<Step>, a: Step)
    requires OfItem(a) && !Early(a) && !Bodily(a) && Enabled(m, s, a) && Explains(m, snap, steps, a.key, s.phase[a.key])
    ensures Explains(m, snap, steps + [a], a.key, Apply(m, s, a).phase[a.key])
  {}

  lemma HaltIsSet(m: Map, s: Sys, steps: seq<Step>, a: Step)
    requires Enabled(m, s, a) && !a.CrashAndResume? && (s.halted ==> SetHalt in steps)
    ensures Apply(m, s, a).halted ==> SetHalt in steps + [a]
  {}

  lemma {:induction false} HaltWasSet(m: Map, s: Sys, steps: seq<Step>)
    requires !s.halted && From(m, s, steps).Some? && NoCrash(steps)
    ensures From(m, s, steps).value.halted ==> SetHalt in steps
  {
    if steps != [] {
      var front, a := steps[..|steps| - 1], steps[|steps| - 1];
      HaltWasSet(m, s, front);
      HaltIsSet(m, From(m, s, front).value, front, a);
      assert steps == front + [a];
    }
  }

  /** Every item ends by its own steps: as completed only when its body returned that value and was
      merged, as skipped only when its guard refused or a cut skipped it, as failed only when it
      failed, and it is interrupted only when the halt was set; or the snapshot the map was resumed
      from says so. */
  lemma {:induction false} ItemsEndByTheirSteps(m: Map, snap: Snap, commits: set<Snap>, steps: seq<Step>, k: Key)
    requires Consistent(m, snap) && snap.done.Keys <= m.keys && CommitsOk(m, commits) && k in m.keys
    requires From(m, Checkout(m, snap, commits), steps).Some? && NoCrash(steps)
    ensures var s := From(m, Checkout(m, snap, commits), steps).value;
      k in s.phase && Explains(m, snap, steps, k, s.phase[k])
  {
    if steps == [] {
      StartExplains(m, snap, commits, k);
    } else {
      var front, a := steps[..|steps| - 1], steps[|steps| - 1];
      ItemsEndByTheirSteps(m, snap, commits, front, k);
      ItemStaysOk(m, snap, commits, front, k);
      ItemStaysOk(m, snap, commits, steps, k);
      HaltWasSet(m, Checkout(m, snap, commits), front);
      assert steps == front + [a];
      ItemStepExplains(m, snap, From(m, Checkout(m, snap, commits), front).value, front, a, k);
    }
  }

  lemma StartExplains(m: Map, snap: Snap, commits: set<Snap>, k: Key)
    requires Consistent(m, snap) && k in m.keys
    ensures Explains(m, snap, [], k, Checkout(m, snap, commits).phase[k])
  {}

  lemma {:induction false} ItemStepExplains(m: Map, snap: Snap, s: Sys, steps: seq<Step>, a: Step, k: Key)
    requires ItemOk(m, s, k) && Enabled(m, s, a) && !a.CrashAndResume? && k in s.phase && k in Apply(m, s, a).phase
    requires Explains(m, snap, steps, k, s.phase[k]) && (s.halted ==> SetHalt in steps)
    ensures Explains(m, snap, steps + [a], k, Apply(m, s, a).phase[k])
  {
    if !OfItem(a) || a.key != k {
      OneLeaves(m, s, a, k);
      ExplainsStill(m, snap, steps, a, k, s.phase[k]);
    } else if Early(a) {
      EarlyExplains(m, snap, s, steps, a);
    } else if Bodily(a) {
      BodilyExplains(m, snap, s, steps, a);
    } else {
      MergeExplains(m, snap, s, steps, a);
    }
  }
}
