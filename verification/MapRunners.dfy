/** A .map step's runner: each method is what an item does between two awaits, and keeps what
    MapItems shows of every run. Gather drives the items in any order to the map's end. */
module MapRunners {
  import opened MapItems
  import opened Wrappers

  /** How the call an item waits for ends: its body, guard, projection, merge or save. */
  datatype Answer =
    | Returns(value: Value)
    | Refuses
    | Raises
    | Interrupts
    | Untagged

  /** What happens next: an item's call ends, or its body writes its scope; the halt or a signal is
      set; someone takes a checkpoint. */
  datatype Turn =
    | Resumes(key: Key, answer: Answer)
    | Writes(key: Key, scope: Value)
    | Halts
    | Signals
    | Saves

  /** The step an item takes when its call ends so: none when it cannot, or waits for the merge lock. */
  function ItemStep(s: Sys, k: Key, answer: Answer): Option<Step>
    requires k in s.phase
  {
    match s.phase[k]
    case Waiting =>
      if answer.Returns? then
        Some(if s.halted then StopBefore(k) else if s.cut && k !in s.saved then SkipCut(k) else Start(k, answer.value))
      else if answer.Raises? && !s.halted && !s.cut && k !in s.saved then Some(BodyFails(k))
      else None
    case Asking => Some(if answer.Raises? then BodyFails(k) else if answer.Refuses? then Refuse(k) else Admit(k))
    case Running =>
      (match answer
       case Returns(value) => Some(BodyReturns(k, value))
       case Raises => Some(BodyFails(k))
       case Interrupts => if s.halted then Some(Interrupt(k)) else None
       case _ => None)
    case Unmerged(_) => Some(TakeSaved(k))
    case Returned(_, _) => if LockFree(s) then Some(if answer.Raises? then MergeFails(k) else MergeAndSave(k)) else None
    case Saving(_, _, _, _, _) =>
      Some(if answer.Raises? then SaveFails(k) else if answer.Untagged? then TagFails(k) else SaveSucceeds(k))
    case Failing(_) => Some(RecordFailure(k))
    case _ => None
  }

  function TurnStep(s: Sys, turn: Turn): Option<Step> {
    match turn
    case Resumes(k, answer) => if k in s.phase then ItemStep(s, k, answer) else None
    case Writes(k, scope) => if k in s.phase && s.phase[k].Running? then Some(Work(k, scope)) else None
    case Halts => Some(SetHalt)
    case Signals => Some(SetSignal)
    case Saves => Some(Checkpoint)
  }

  function Played(m: Map, s: Sys, turn: Turn): Sys {
    match TurnStep(s, turn)
    case None => s
    case Some(a) => if Enabled(m, s, a) then Apply(m, s, a) else s
  }

  function PlayedAll(m: Map, s: Sys, turns: seq<Turn>): Sys {
    if turns == [] then s else Played(m, PlayedAll(m, s, turns[..|turns| - 1]), turns[|turns| - 1])
  }

  lemma Plays(m: Map, s: Sys, turn: Turn, a: Step)
    requires TurnStep(s, turn) == Some(a) && Enabled(m, s, a)
    ensures Played(m, s, turn) == Apply(m, s, a)
  {}

  // ----- what an item's call decides -----

  /** A guard that refuses ends the item as skipped, without its scope; one that raises fails it; only
      one that admits it lets its body run. */
  lemma GuardDecides(m: Map, s: Sys, k: Key, answer: Answer)
    requires k in s.phase && s.phase[k].Asking?
    ensures var t := Played(m, s, Resumes(k, answer));
      && (answer.Refuses? ==> t.phase == s.phase[k := Over(Skip)] && k !in t.live && t.done == s.done[k := Record(Skip, true)])
      && (answer.Raises? ==> t.phase == s.phase[k := if m.strict then Raised else Over(Fail)])
      && (!answer.Refuses? && !answer.Raises? ==> t == s.(phase := s.phase[k := Phase.Running]))
  {}

  /** A body that returns completes the item with that value; one that raises fails it; one that the halt
      interrupts stops it, with its scope. */
  lemma BodyDecides(m: Map, s: Sys, k: Key, answer: Answer)
    requires k in s.phase && s.phase[k].Running? && k in s.live
    ensures var t := Played(m, s, Resumes(k, answer));
      && (answer.Returns? ==>
            && t.phase == s.phase[k := Returned(answer.value, false)] && t.live == s.live
            && t.done == s.done[k := Record(Ok(answer.value), false)] && t.left == s.left[k := s.live[k]])
      && (answer.Raises? ==> t.phase == s.phase[k := if m.strict then Raised else Over(Fail)])
      && (answer.Interrupts? ==> t == if s.halted then s.(phase := s.phase[k := Interrupted]) else s)
  {}

  /** A completed item waits for the merge lock; with it, the merge raises and the item fails, or the
      parent has the merge. */
  lemma MergeDecides(m: Map, s: Sys, k: Key, answer: Answer)
    requires k in s.phase && s.phase[k].Returned? && k in s.live
    ensures var t := Played(m, s, Resumes(k, answer));
      if !LockFree(s) then t == s
      else if answer.Raises? then t.phase == s.phase[k := Failing(s.phase[k].late)] && t.done == s.done - {k} && t.parent == s.parent
      else && t.parent == m.merge(s.parent, s.live[k]) && k !in t.live && t.done == s.done[k := Record(Ok(s.phase[k].value), true)]
           && k in t.phase && (if m.saves then t.phase[k].Saving? else t.phase[k] == Over(Ok(s.phase[k].value)))
  {}

  /** A save that returns ends the item; one that raises takes its merge back, and leaves the commit when
      only its tag did not move. */
  lemma SaveDecides(m: Map, s: Sys, k: Key, answer: Answer)
    requires k in s.phase && s.phase[k].Saving?
    ensures var t := Played(m, s, Resumes(k, answer));
      if answer.Raises? || answer.Untagged?
      then && t.phase == s.phase[k := Failing(s.phase[k].late)] && t.parent == s.phase[k].before && t.merges == s.phase[k].merges
           && t.done == s.done - {k} && t.commits == s.commits + if answer.Untagged? then {s.phase[k].snap} else {}
      else t == s.(phase := s.phase[k := Over(Ok(s.phase[k].value))], commits := s.commits + {s.phase[k].snap})
  {}

  /** An item that ended, or was stopped, stays so. */
  lemma EndedItemStays(m: Map, s: Sys, k: Key, answer: Answer)
    requires k in s.phase && (s.phase[k].Over? || s.phase[k].Raised? || s.phase[k].Interrupted?)
    ensures Played(m, s, Resumes(k, answer)) == s
  {}

  class MapRunner {
    const m: Map
    /** The parent's payload, the cursor's records, and the run's registry: live scopes, and those a
        checkout saved and nothing has taken. */
    var parent: Value
    var done: map<Key, Record>
    var live: map<Key, Value>
    var saved: map<Key, Value>
    var halted: bool
    var cut: bool
    /** Where each item's coroutine is, the commits written, and the map's history. */
    var phase: map<Key, Phase>
    var commits: set<Snap>
    var merges: seq<Merge>
    var left: map<Key, Value>
    /** Where the runner started, and its steps since. */
    ghost const start: Sys
    ghost var steps: seq<Step>

    function State(): Sys
      reads this
    {
      Sys(parent, done, live, saved, phase, halted, cut, commits, merges, left)
    }

    /** The runner has come here from a consistent start by steps of the protocol. */
    ghost predicate Valid()
      reads this
    {
      Inv(m, start) && From(m, start, steps) == Some(State())
    }

    /** So its merges are exactly once, every record's scope is at hand, and every commit written can be
        resumed. */
    lemma ValidIsConsistent()
      requires Valid()
      ensures Inv(m, State())
    {
      StaysConsistent(m, start, steps);
    }

    /** An item's scope is live from its start to its merge. */
    lemma ScopeIsLive(k: Key)
      requires Valid() && k in phase && (phase[k].Running? || phase[k].Returned?)
      ensures k in live && (phase[k].Returned? ==> k in done && done[k] == Record(Ok(phase[k].value), false))
    {
      ValidIsConsistent();
      assert PhaseOk(m, State(), k, phase[k]);
    }

    /** A completed item's scope is there for its merge. */
    lemma ScopeIsSaved(k: Key)
      requires Valid() && k in phase && phase[k].Unmerged?
      ensures k in saved
    {
      ValidIsConsistent();
      assert PhaseOk(m, State(), k, phase[k]);
      assert k in saved + live;
    }

    /** A map that starts from its parent's payload, or continues from a snapshot. */
    constructor (m: Map, snap: Snap, commits: set<Snap>)
      requires Consistent(m, snap) && snap.done.Keys <= m.keys && CommitsOk(m, commits)
      ensures this.m == m && Valid() && State() == Checkout(m, snap, commits)
    {
      this.m, parent, done, live, saved, halted, cut := m, snap.parent, snap.done, map[], snap.scopes, false, snap.cut;
      phase, this.commits, merges, left := Phases(m, snap.done), commits, snap.merges, snap.left;
      start, steps := Checkout(m, snap, commits), [];
      CheckoutKeeps(m, snap, commits);
    }

    /** The next step of the protocol. */
    ghost method Take(a: Step)
      requires Valid() && Enabled(m, State(), a)
      modifies this`steps
      ensures steps == old(steps) + [a] && From(m, start, steps) == Some(Apply(m, State(), a))
    {
      assert (steps + [a])[..|steps|] == steps;
      steps := steps + [a];
    }

    /** An item's turn comes: the halt is checked first, then a cut, and only then is it started. */
    method Begin(k: Key, projected: Value)
      requires Valid() && k in phase && phase[k].Waiting?
      modifies this
      ensures Valid()
      ensures State() == Apply(m, old(State()),
        if old(halted) then StopBefore(k) else if old(cut && k !in saved) then SkipCut(k) else Start(k, projected))
    {
      Take(if halted then StopBefore(k) else if cut && k !in saved then SkipCut(k) else Start(k, projected));
      if halted {
        phase := phase[k := Interrupted];
        return;
      }
      if cut && k !in saved {
        done := done[k := Record(Skip, true)];
        phase := phase[k := Over(Skip)];
        return;
      }
      if k in saved {
        live, saved := live[k := saved[k]], saved - {k};
        phase := phase[k := Phase.Running];
      } else {
        live := live[k := projected];
        phase := phase[k := Asking];
      }
    }

    method GuardAnswered(k: Key, admits: bool)
      requires Valid() && k in phase && phase[k].Asking?
      modifies this
      ensures Valid() && State() == Apply(m, old(State()), if admits then Admit(k) else Refuse(k))
    {
      Take(if admits then Admit(k) else Refuse(k));
      if admits {
        phase := phase[k := Phase.Running];
      } else {
        live := live - {k};
        done := done[k := Record(Skip, true)];
        phase := phase[k := Over(Skip)];
      }
    }

    method BodyWrites(k: Key, scope: Value)
      requires Valid() && k in phase && phase[k].Running?
      modifies this
      ensures Valid() && State() == Apply(m, old(State()), Work(k, scope))
    {
      Take(Work(k, scope));
      live := live[k := scope];
    }

    method BodyStops(k: Key)
      requires Valid() && k in phase && phase[k].Running? && halted
      modifies this
      ensures Valid() && State() == Apply(m, old(State()), Interrupt(k))
    {
      Take(Interrupt(k));
      phase := phase[k := Interrupted];
    }

    /** The body returns: the item is recorded as completed at once, its merge still to come. */
    method BodyReturned(k: Key, value: Value)
      requires Valid() && k in phase && phase[k].Running?
      modifies this
      ensures Valid() && k in old(live) && State() == Apply(m, old(State()), BodyReturns(k, value))
    {
      ScopeIsLive(k);
      Take(BodyReturns(k, value));
      done := done[k := Record(Ok(value), false)];
      phase, left := phase[k := Returned(value, false)], left[k := live[k]];
    }

    /** The projection, the guard or the body raises: a strict map keeps the item registered. */
    method BodyRaised(k: Key)
      requires Valid() && Enabled(m, State(), BodyFails(k))
      modifies this
      ensures Valid() && State() == Apply(m, old(State()), BodyFails(k))
    {
      Take(BodyFails(k));
      if m.strict {
        phase := phase[k := Raised];
      } else {
        live := live - {k};
        done := done[k := Record(Fail, true)];
        phase := phase[k := Over(Fail)];
      }
    }

    /** A resumed map's turn for an item whose body had completed: its scope comes back for the merge.
        It is always there, so the restart the code has for a missing one never happens. */
    method TakeSavedScope(k: Key)
      requires Valid() && k in phase && phase[k].Unmerged?
      modifies this
      ensures Valid() && k in old(saved) && State() == Apply(m, old(State()), TakeSaved(k))
    {
      ScopeIsSaved(k);
      Take(TakeSaved(k));
      live, saved := live[k := saved[k]], saved - {k};
      phase := phase[k := Returned(phase[k].value, true)];
    }

    /** Under the merge lock: merge, record the merge and drop the scope in one step; a policy's save
        keeps the parent's payload from before it. */
    method MergeUnderLock(k: Key)
      requires Valid() && k in phase && phase[k].Returned? && LockFree(State())
      modifies this
      ensures Valid() && k in old(live) && State() == Apply(m, old(State()), MergeAndSave(k))
    {
      ScopeIsLive(k);
      Take(MergeAndSave(k));
      var rollback, before, p := parent, merges, phase[k];
      MergeScope(k, p.value);
      phase := phase[k := if m.saves then Saving(p.value, p.late, rollback, before, Capture(State())) else Over(Ok(p.value))];
    }

    method MergeScope(k: Key, value: Value)
      requires k in live && k in done && done[k].result == Ok(value)
      modifies this`parent, this`done, this`merges, this`live
      ensures State() == Merged(m, old(State()), k, value)
    {
      parent := m.merge(parent, live[k]);
      done := done[k := Record(done[k].result, true)];
      merges := merges + [Merge(k, live[k])];
      live := live - {k};
    }

    method SaveReturned(k: Key)
      requires Valid() && k in phase && phase[k].Saving?
      modifies this
      ensures Valid() && State() == Apply(m, old(State()), SaveSucceeds(k))
    {
      Take(SaveSucceeds(k));
      var p := phase[k];
      commits := commits + {p.snap};
      phase := phase[k := Over(Ok(p.value))];
    }

    /** The save raised: the merge and its record are taken back, also when the commit had been written
        and only its tag had not moved. */
    method SaveRaised(k: Key, written: bool)
      requires Valid() && k in phase && phase[k].Saving?
      modifies this
      ensures Valid() && State() == Apply(m, old(State()), if written then TagFails(k) else SaveFails(k))
    {
      Take(if written then TagFails(k) else SaveFails(k));
      var snap := phase[k].snap;
      RollBack(k);
      if written {
        commits := commits + {snap};
      }
    }

    /** The parent's payload and records as they were before the merge. */
    method RollBack(k: Key)
      requires k in phase && phase[k].Saving?
      modifies this`parent, this`done, this`merges, this`phase
      ensures State() == RolledBack(old(State()), k)
    {
      var p := phase[k];
      done := done - {k};
      parent := p.before;
      merges := p.merges;
      phase := phase[k := Failing(p.late)];
    }

    method MergeRaised(k: Key)
      requires Valid() && k in phase && phase[k].Returned? && LockFree(State())
      modifies this
      ensures Valid() && State() == Apply(m, old(State()), MergeFails(k))
    {
      Take(MergeFails(k));
      done := done - {k};
      phase := phase[k := Failing(phase[k].late)];
    }

    /** The item's failure is its outcome: recorded when it ran in this run, dropped when only its
        merge did. */
    method FailureOutcome(k: Key)
      requires Valid() && k in phase && phase[k].Failing?
      modifies this
      ensures Valid() && State() == Apply(m, old(State()), RecordFailure(k))
    {
      Take(RecordFailure(k));
      FailItem(k);
    }

    method FailItem(k: Key)
      requires k in phase && phase[k].Failing?
      modifies this`done, this`live, this`phase
      ensures State() == FailedFor(m, old(State()), k)
    {
      if phase[k].late {
        live := live - {k};
      } else if !m.strict {
        live := live - {k};
        done := done[k := Record(Fail, true)];
      }
      phase := phase[k := if m.strict then Raised else Over(Fail)];
    }

    /** What any checkpoint of the run, whoever takes it, holds of the map. */
    method CheckpointTaken()
      requires Valid()
      modifies this`commits, this`steps
      ensures Valid() && State() == Apply(m, old(State()), Checkpoint)
    {
      Take(Checkpoint);
      commits := commits + {Capture(State())};
    }

    method HaltSet()
      requires Valid()
      modifies this`halted, this`steps
      ensures Valid() && State() == Apply(m, old(State()), SetHalt)
    {
      Take(SetHalt);
      halted := true;
    }

    method SignalSet()
      requires Valid()
      modifies this`cut, this`steps
      ensures Valid() && State() == Apply(m, old(State()), SetSignal)
    {
      Take(SetSignal);
      cut := true;
    }

    /** One item, resumed with what its call ends with; a call that cannot end so where the item is, and
        an item that waits for the merge lock, stay as they are. */
    method Resume(k: Key, answer: Answer)
      requires Valid() && k in phase
      modifies this
      ensures Valid() && State() == Played(m, old(State()), Resumes(k, answer))
    {
      if phase[k].Waiting? || phase[k].Asking? {
        ResumeStart(k, answer);
      } else if phase[k].Running? {
        ResumeBody(k, answer);
      } else if phase[k].Returned? || phase[k].Unmerged? {
        ResumeMerge(k, answer);
      } else {
        ResumeSave(k, answer);
      }
    }

    method ResumeStart(k: Key, answer: Answer)
      requires Valid() && k in phase && (phase[k].Waiting? || phase[k].Asking?)
      modifies this
      ensures Valid() && State() == Played(m, old(State()), Resumes(k, answer))
    {
      if phase[k].Waiting? {
        if answer.Returns? {
          Begin(k, answer.value);
        } else if answer.Raises? && !halted && !cut && k !in saved {
          BodyRaised(k);
        }
      } else if answer.Raises? {
        BodyRaised(k);
      } else {
        GuardAnswered(k, !answer.Refuses?);
      }
    }

    method ResumeBody(k: Key, answer: Answer)
      requires Valid() && k in phase && phase[k].Running?
      modifies this
      ensures Valid() && State() == Played(m, old(State()), Resumes(k, answer))
    {
      match answer
      case Returns(value) => BodyReturned(k, value);
      case Raises => BodyRaised(k);
      case Interrupts => if halted { BodyStops(k); }
      case _ =>
    }

    method ResumeMerge(k: Key, answer: Answer)
      requires Valid() && k in phase && (phase[k].Returned? || phase[k].Unmerged?)
      modifies this
      ensures Valid() && State() == Played(m, old(State()), Resumes(k, answer))
    {
      if phase[k].Returned? {
        ScopeIsLive(k);
      }
      ghost var s := State();
      if phase[k].Unmerged? {
        Plays(m, s, Resumes(k, answer), TakeSaved(k));
        TakeSavedScope(k);
      } else if LockFree(State()) {
        Plays(m, s, Resumes(k, answer), if answer.Raises? then MergeFails(k) else MergeAndSave(k));
        if answer.Raises? {
          MergeRaised(k);
        } else {
          MergeUnderLock(k);
        }
      }
    }

    method ResumeSave(k: Key, answer: Answer)
      requires Valid() && k in phase
      requires phase[k].Saving? || phase[k].Failing? || phase[k].Interrupted? || phase[k].Raised? || phase[k].Over?
      modifies this
      ensures Valid() && State() == Played(m, old(State()), Resumes(k, answer))
    {
      ghost var s := State();
      if phase[k].Saving? {
        if answer.Raises? || answer.Untagged? {
          Plays(m, s, Resumes(k, answer), if answer.Untagged? then TagFails(k) else SaveFails(k));
          SaveRaised(k, answer.Untagged?);
        } else {
          Plays(m, s, Resumes(k, answer), SaveSucceeds(k));
          SaveReturned(k);
        }
      } else if phase[k].Failing? {
        Plays(m, s, Resumes(k, answer), RecordFailure(k));
        FailureOutcome(k);
      }
    }

    method Play(turn: Turn)
      requires Valid()
      modifies this
      ensures Valid() && State() == Played(m, old(State()), turn)
    {
      match turn
      case Resumes(k, answer) => if k in phase { Resume(k, answer); }
      case Writes(k, scope) => if k in phase && phase[k].Running? { BodyWrites(k, scope); }
      case Halts => HaltSet();
      case Signals => SignalSet();
      case Saves => CheckpointTaken();
    }

    /** The items, resumed in any order with whatever their calls end with, among checkpoints, a halt
        and signals. When every item is over, the parent holds exactly one merge for each that
        succeeded, of the scope its body left; until then, and if the process stops at any moment, every
        commit written can be resumed. */
    method Gather(turns: seq<Turn>) returns (finished: bool)
      requires Valid()
      modifies this
      ensures Valid() && State() == PlayedAll(m, old(State()), turns)
      ensures finished <==> Finished(m, State())
      ensures finished ==> OneMergePerSuccess(m, State())
      ensures CommitsOk(m, commits)
    {
      for i := 0 to |turns|
        invariant Valid() && State() == PlayedAll(m, old(State()), turns[..i])
      {
        assert turns[..i + 1][..i] == turns[..i];
        Play(turns[i]);
      }
      assert turns[..|turns|] == turns;
      ValidIsConsistent();
      finished := Finished(m, State());
      if finished {
        FinishedMerged(m, State());
      }
    }
  }
}
