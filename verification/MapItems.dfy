/** The items of a scoped .map: run concurrently, checkpointed at any moment, crashed and resumed
    from any checkpoint.

    One step is what happens between two awaits. The items' bodies and the merge are abstract: a
    body changes its own scope as it likes, a merge is applied whole or not at all.
 */
module MapItems {
  import opened Wrappers

  type Key(==, !new)

  /** An item's result, or a scope's payload. */
  type Value(==, !new)

  /** What is fixed: the items' keys, strict=, whether the policy saves after each item, the
      parent's payload when the map started, and the merge. */
  datatype Map = Map(keys: set<Key>, strict: bool, saves: bool, base: Value, merge: (Value, Value) -> Value)

  datatype Result = Ok(value: Value) | Skip | Fail

  /** A done item's record in the map's cursor. */
  datatype Record = Record(result: Result, merged: bool)

  /** One merge applied to the parent: whose, and the scope it merged. */
  datatype Merge = Merge(key: Key, scope: Value)

  /** Where an item is. late: it finishes an item whose body completed before the checkpoint. */
  datatype Phase =
    | Waiting
    | Unmerged(value: Value)
    | Asking
    | Running
    | Returned(value: Value, late: bool)
    | Saving(value: Value, late: bool, before: Value, merges: seq<Merge>, snap: Snap)
    | Failing(late: bool)
    | Interrupted
    | Raised
    | Over(result: Result)

  /** What a checkpoint holds of the map: the parent's payload, the records, the items' scopes, and
      whether the signal of a region the map is in was set. The merges the payload has had, and the scope each completed body left, are its history. */
  datatype Snap = Snap(parent: Value, done: map<Key, Record>, scopes: map<Key, Value>, cut: bool, merges: seq<Merge>, left: map<Key, Value>)

  datatype Sys = Sys(
    parent: Value,
    done: map<Key, Record>,
    live: map<Key, Value>,
    saved: map<Key, Value>,
    phase: map<Key, Phase>,
    halted: bool,
    cut: bool,
    commits: set<Snap>,
    merges: seq<Merge>,
    left: map<Key, Value>)

  function Capture(s: Sys): Snap {
    Snap(s.parent, s.done, s.saved + s.live, s.cut, s.merges, s.left)
  }

  /** The phases of a map that continues with these records. */
  function Phases(m: Map, done: map<Key, Record>): (p: map<Key, Phase>)
    ensures p.Keys == m.keys
  {
    map k | k in m.keys ::
      if k !in done then Waiting
      else if done[k].merged then Over(done[k].result)
      else match done[k].result case Ok(v) => Unmerged(v) case _ => Over(done[k].result)
  }

  function Checkout(m: Map, snap: Snap, commits: set<Snap>): Sys {
    Sys(snap.parent, snap.done, map[], snap.scopes, Phases(m, snap.done), false, snap.cut, commits, snap.merges, snap.left)
  }

  function Init(m: Map): Sys {
    Checkout(m, Snap(m.base, map[], map[], false, [], map[]), {})
  }

  // ----- steps -----

  datatype Step =
    | SetHalt
    | SetSignal
    | Checkpoint
    | CrashAndResume(snap: Snap)
    | StopBefore(key: Key)
    | SkipCut(key: Key)
    | Start(key: Key, projected: Value)
    | Admit(key: Key)
    | Refuse(key: Key)
    | Work(key: Key, scope: Value)
    | Interrupt(key: Key)
    | BodyFails(key: Key)
    | BodyReturns(key: Key, value: Value)
    | TakeSaved(key: Key)
    | MergeAndSave(key: Key)
    | MergeFails(key: Key)
    | SaveSucceeds(key: Key)
    | SaveFails(key: Key)
    | TagFails(key: Key)
    | RecordFailure(key: Key)

  /** The merge lock is held while an item's save is in flight. */
  predicate LockFree(s: Sys) {
    forall k | k in s.phase :: !s.phase[k].Saving?
  }

  predicate Enabled(m: Map, s: Sys, a: Step) {
    match a
    case SetHalt => true
    case SetSignal => true
    case Checkpoint => true
    case CrashAndResume(snap) => snap in s.commits
    case StopBefore(k) => k in s.phase && s.phase[k].Waiting? && s.halted
    case SkipCut(k) => k in s.phase && s.phase[k].Waiting? && !s.halted && s.cut && k !in s.saved
    case Start(k, _) => k in s.phase && s.phase[k].Waiting? && !s.halted && (s.cut ==> k in s.saved)
    case Admit(k) => k in s.phase && s.phase[k].Asking?
    case Refuse(k) => k in s.phase && s.phase[k].Asking?
    case Work(k, _) => k in s.phase && s.phase[k].Running?
    case Interrupt(k) => k in s.phase && s.phase[k].Running? && s.halted
    // Its projection, its guard or its body raises.
    case BodyFails(k) =>
      && k in s.phase
      && (s.phase[k].Running? || s.phase[k].Asking? || (s.phase[k].Waiting? && !s.halted && !s.cut && k !in s.saved))
    case BodyReturns(k, _) => k in s.phase && s.phase[k].Running? && k in s.live
    case TakeSaved(k) => k in s.phase && s.phase[k].Unmerged?
    case MergeAndSave(k) => k in s.phase && s.phase[k].Returned? && k in s.live && LockFree(s)
    case MergeFails(k) => k in s.phase && s.phase[k].Returned? && LockFree(s)
    case SaveSucceeds(k) => k in s.phase && s.phase[k].Saving?
    case SaveFails(k) => k in s.phase && s.phase[k].Saving?
    case TagFails(k) => k in s.phase && s.phase[k].Saving?
    case RecordFailure(k) => k in s.phase && s.phase[k].Failing?
  }

  function At(s: Sys, k: Key, p: Phase): Sys { s.(phase := s.phase[k := p]) }

  /** The merge of item k's scope, its record, and its scope dropped. */
  function Merged(m: Map, s: Sys, k: Key, v: Value): Sys
    requires k in s.live
  {
    s.(
      parent := m.merge(s.parent, s.live[k]),
      done := s.done[k := Record(Ok(v), true)],
      live := s.live - {k},
      merges := s.merges + [Merge(k, s.live[k])])
  }

  function Apply(m: Map, s: Sys, a: Step): Sys
    requires Enabled(m, s, a)
  {
    match a
    case SetHalt => s.(halted := true)
    case SetSignal => s.(cut := true)
    case Checkpoint => s.(commits := s.commits + {Capture(s)})
    case CrashAndResume(snap) => Checkout(m, snap, s.commits)
    case StopBefore(k) => At(s, k, Interrupted)
    // A map that fast-forwards starts no new item.
    case SkipCut(k) => At(s.(done := s.done[k := Record(Skip, true)]), k, Over(Skip))
    // The scope a checkout saved comes back, and the guard is not asked again; else it is projected.
    case Start(k, projected) =>
      if k in s.saved
      then At(s.(live := s.live[k := s.saved[k]], saved := s.saved - {k}), k, Phase.Running)
      else At(s.(live := s.live[k := projected]), k, Asking)
    case Admit(k) => At(s, k, Phase.Running)
    case Refuse(k) => At(s.(live := s.live - {k}, done := s.done[k := Record(Skip, true)]), k, Over(Skip))
    case Work(k, scope) => s.(live := s.live[k := scope])
    case Interrupt(k) => At(s, k, Interrupted)
    case BodyFails(k) =>
      if m.strict then At(s, k, Raised)
      else At(s.(live := s.live - {k}, done := s.done[k := Record(Fail, true)]), k, Over(Fail))
    case BodyReturns(k, v) =>
      At(s.(done := s.done[k := Record(Ok(v), false)], left := s.left[k := s.live[k]]), k, Returned(v, false))
    // Without the saved scope the item runs from the start.
    case TakeSaved(k) =>
      if k in s.saved
      then At(s.(live := s.live[k := s.saved[k]], saved := s.saved - {k}), k, Returned(s.phase[k].value, true))
      else At(s.(done := s.done - {k}), k, Waiting)
    // Merge, record it and drop the scope in one step; with a policy, hold the lock for the save.
    case MergeAndSave(k) =>
      var p := s.phase[k];
      var t := Merged(m, s, k, p.value);
      At(t, k, if m.saves then Saving(p.value, p.late, s.parent, s.merges, Capture(t)) else Over(Ok(p.value)))
    case MergeFails(k) => At(s.(done := s.done - {k}), k, Failing(s.phase[k].late))
    case SaveSucceeds(k) =>
      At(s.(commits := s.commits + {s.phase[k].snap}), k, Over(Ok(s.phase[k].value)))
    case SaveFails(k) => RolledBack(s, k)
    // The commit was written, then moving its checkpoint's tag raised: the history keeps the merge.
    case TagFails(k) => RolledBack(s, k).(commits := s.commits + {s.phase[k].snap})
    case RecordFailure(k) => FailedFor(m, s, k)
  }

  /** The parent goes back to before item k's merge: no one else merged meanwhile. */
  function RolledBack(s: Sys, k: Key): Sys
    requires k in s.phase && s.phase[k].Saving?
  {
    var p := s.phase[k];
    At(s.(parent := p.before, merges := p.merges, done := s.done - {k}), k, Failing(p.late))
  }

  /** Item k's failure is its outcome. */
  function FailedFor(m: Map, s: Sys, k: Key): Sys
    requires k in s.phase && s.phase[k].Failing?
  {
    var late := s.phase[k].late;
    var t := if late || !m.strict then s.(live := s.live - {k}) else s;
    var u := if late || m.strict then t else t.(done := t.done[k := Record(Fail, true)]);
    At(u, k, if m.strict then Raised else Over(Fail))
  }

  // ----- what every reachable state keeps -----

  function Fold(m: Map, merges: seq<Merge>): Value {
    if merges == [] then m.base
    else m.merge(Fold(m, merges[..|merges| - 1]), merges[|merges| - 1].scope)
  }

  ghost predicate Distinct(merges: seq<Merge>) {
    forall i, j :: 0 <= i < j < |merges| ==> merges[i].key != merges[j].key
  }

  ghost predicate Has(merges: seq<Merge>, k: Key) {
    exists i :: 0 <= i < |merges| && merges[i].key == k
  }

  predicate Successful(done: map<Key, Record>, k: Key) {
    k in done && done[k].merged && done[k].result.Ok?
  }

  /** The parent is the fold of one merge for each record that says so, each of the scope that
      item's body left. */
  ghost predicate MergedOnce(m: Map, parent: Value, done: map<Key, Record>, merges: seq<Merge>, left: map<Key, Value>) {
    && parent == Fold(m, merges)
    && Distinct(merges)
    && (forall k :: Has(merges, k) <==> Successful(done, k))
    && (forall i :: 0 <= i < |merges| ==> merges[i].key in left && left[merges[i].key] == merges[i].scope)
  }

  /** A record that is not merged has its scope at hand, as its body left it. */
  ghost predicate ScopesKept(done: map<Key, Record>, scopes: map<Key, Value>, left: map<Key, Value>) {
    forall k | k in done && !done[k].merged :: done[k].result.Ok? && k in scopes && k in left && left[k] == scopes[k]
  }

  ghost predicate Consistent(m: Map, snap: Snap) {
    && MergedOnce(m, snap.parent, snap.done, snap.merges, snap.left)
    && ScopesKept(snap.done, snap.scopes, snap.left)
  }

  /** What an item's phase says of its record and its scope. */
  ghost predicate PhaseOk(m: Map, s: Sys, k: Key, p: Phase) {
    match p
    case Waiting => k !in s.done && k !in s.live
    case Unmerged(v) => k in s.done && s.done[k] == Record(Ok(v), false) && k !in s.live
    case Asking => k !in s.done && k in s.live && k !in s.saved
    case Running => k !in s.done && k in s.live && k !in s.saved
    case Returned(v, _) => k in s.done && s.done[k] == Record(Ok(v), false) && k in s.live && k !in s.saved
    case Saving(v, _, before, merges, snap) =>
      && k in s.done && s.done[k] == Record(Ok(v), true) && k !in s.live
      && before == Fold(m, merges) && |s.merges| == |merges| + 1 && merges == s.merges[..|merges|]
      && s.merges[|merges|].key == k
      && Consistent(m, snap) && snap.done.Keys <= m.keys
    case Failing(_) => k !in s.done
    case Interrupted => k !in s.done
    case Raised => k !in s.done
    case Over(r) => k !in s.live && (if r.Fail? then k in s.done ==> s.done[k] == Record(Fail, true)
                    else k in s.done && s.done[k] == Record(r, true))
  }

  ghost predicate CommitsOk(m: Map, commits: set<Snap>) {
    forall snap | snap in commits :: Consistent(m, snap) && snap.done.Keys <= m.keys
  }

  /** The merge lock has at most one holder. */
  ghost predicate OneSaver(phase: map<Key, Phase>) {
    forall j, k | j in phase && k in phase && phase[j].Saving? && phase[k].Saving? :: j == k
  }

  ghost predicate Inv(m: Map, s: Sys) {
    && s.phase.Keys == m.keys
    && s.done.Keys <= m.keys
    && MergedOnce(m, s.parent, s.done, s.merges, s.left)
    && ScopesKept(s.done, s.saved + s.live, s.left)
    && (forall k | k in s.phase :: PhaseOk(m, s, k, s.phase[k]))
    && OneSaver(s.phase)
    && CommitsOk(m, s.commits)
  }

  // ----- proofs -----

  lemma FoldLast(m: Map, merges: seq<Merge>, x: Merge)
    ensures Fold(m, merges + [x]) == m.merge(Fold(m, merges), x.scope)
  {
    assert (merges + [x])[..|merges|] == merges;
  }

  /** Merging an unmerged record's scope once, and recording it. */
  lemma MergeKeeps(m: Map, s: Sys, k: Key, v: Value)
    requires MergedOnce(m, s.parent, s.done, s.merges, s.left)
    requires k in s.done && s.done[k] == Record(Ok(v), false) && k in s.live && k in s.left && s.left[k] == s.live[k]
    ensures MergedOnce(m, m.merge(s.parent, s.live[k]), s.done[k := Record(Ok(v), true)], s.merges + [Merge(k, s.live[k])], s.left)
  {
    var x := Merge(k, s.live[k]);
    FoldLast(m, s.merges, x);
    var t := s.merges + [x];
    assert !Has(s.merges, k);
    forall j ensures Has(t, j) <==> Successful(s.done[k := Record(Ok(v), true)], j) {
      if Has(s.merges, j) {
        var i :| 0 <= i < |s.merges| && s.merges[i].key == j;
        assert t[i].key == j;
      }
      assert t[|s.merges|].key == k;
      if Has(t, j) && j != k {
        var i :| 0 <= i < |t| && t[i].key == j;
        assert s.merges[i].key == j;
      }
    }
  }

  /** Taking the last merge back, with its record. */
  lemma RollbackKeeps(m: Map, s: Sys, k: Key)
    requires MergedOnce(m, s.parent, s.done, s.merges, s.left) && |s.merges| > 0
    requires s.merges[|s.merges| - 1].key == k
    ensures MergedOnce(m, Fold(m, s.merges[..|s.merges| - 1]), s.done - {k}, s.merges[..|s.merges| - 1], s.left)
  {
    var t := s.merges[..|s.merges| - 1];
    forall j ensures Has(t, j) <==> Successful(s.done - {k}, j) {
      if Has(t, j) {
        var i :| 0 <= i < |t| && t[i].key == j;
        assert s.merges[i].key == j;
        assert Has(s.merges, j);
      }
      if Has(s.merges, j) && j != k {
        var i :| 0 <= i < |s.merges| && s.merges[i].key == j;
        assert t[i].key == j;
      }
    }
  }

  /** A record that says no merge changes none. */
  lemma RecordKeeps(m: Map, s: Sys, k: Key, r: Record, left: map<Key, Value>)
    requires MergedOnce(m, s.parent, s.done, s.merges, s.left)
    requires !Successful(s.done, k) && !(r.merged && r.result.Ok?)
    requires forall j | j in s.left && j != k :: j in left && left[j] == s.left[j]
    ensures MergedOnce(m, s.parent, s.done[k := r], s.merges, left)
    ensures MergedOnce(m, s.parent, s.done - {k}, s.merges, left)
  {
    assert !Has(s.merges, k);
    forall j ensures Has(s.merges, j) <==> Successful(s.done[k := r], j) {}
    forall j ensures Has(s.merges, j) <==> Successful(s.done - {k}, j) {}
    forall i | 0 <= i < |s.merges| ensures s.merges[i].key in left && left[s.merges[i].key] == s.merges[i].scope {
      assert Has(s.merges, s.merges[i].key);
    }
  }

  lemma CheckoutKeeps(m: Map, snap: Snap, commits: set<Snap>)
    requires Consistent(m, snap) && snap.done.Keys <= m.keys
    requires CommitsOk(m, commits)
    ensures Inv(m, Checkout(m, snap, commits))
  {
    var s := Checkout(m, snap, commits);
    assert s.saved + s.live == snap.scopes;
  }

  /** Nothing about item j differs between s and t. */
  ghost predicate SameAt(s: Sys, t: Sys, j: Key) {
    && (j in t.phase <==> j in s.phase) && (j in s.phase ==> t.phase[j] == s.phase[j])
    && (j in t.done <==> j in s.done) && (j in s.done ==> t.done[j] == s.done[j])
    && (j in t.live <==> j in s.live) && (j in s.live ==> t.live[j] == s.live[j])
    && (j in t.saved <==> j in s.saved) && (j in s.saved ==> t.saved[j] == s.saved[j])
    && (j in t.left <==> j in s.left) && (j in s.left ==> t.left[j] == s.left[j])
  }

  ghost predicate ScopeKeptAt(s: Sys, k: Key) {
    k in s.done && !s.done[k].merged ==>
      && s.done[k].result.Ok? && k in s.left
      && if k in s.live then s.left[k] == s.live[k] else k in s.saved && s.left[k] == s.saved[k]
  }

  ghost predicate OthersSaving(s: Sys, k: Key) {
    exists j | j in s.phase :: j != k && s.phase[j].Saving?
  }

  /** A step of item k alone keeps what every state keeps, if it does so for k and the parent. */
  lemma ItemKeeps(m: Map, s: Sys, t: Sys, k: Key)
    requires Inv(m, s) && k in s.phase && k in t.phase
    requires forall j | j != k :: SameAt(s, t, j)
    requires CommitsOk(m, t.commits)
    requires t.merges == s.merges || !OthersSaving(s, k)
    requires t.phase[k].Saving? ==> !OthersSaving(s, k)
    requires MergedOnce(m, t.parent, t.done, t.merges, t.left)
    requires PhaseOk(m, t, k, t.phase[k]) && ScopeKeptAt(t, k)
    ensures Inv(m, t)
  {
    forall j ensures j in t.phase <==> j in m.keys { if j != k { assert SameAt(s, t, j); } }
    forall j | j in t.done ensures j in m.keys { if j != k { assert SameAt(s, t, j); } }
    forall j | j in t.done && !t.done[j].merged
      ensures t.done[j].result.Ok? && j in t.saved + t.live && j in t.left && t.left[j] == (t.saved + t.live)[j]
    {
      if j != k { assert SameAt(s, t, j); }
    }
    forall j | j in t.phase ensures PhaseOk(m, t, j, t.phase[j]) {
      if j != k {
        assert SameAt(s, t, j);
        assert PhaseOk(m, s, j, s.phase[j]);
      }
    }
    forall i, j | i in t.phase && j in t.phase && t.phase[i].Saving? && t.phase[j].Saving? ensures i == j {
      if i != k { assert SameAt(s, t, i); }
      if j != k { assert SameAt(s, t, j); }
    }
  }

  /** The step is one item's. */
  predicate OfItem(a: Step) { !a.SetHalt? && !a.SetSignal? && !a.Checkpoint? && !a.CrashAndResume? }

  /** The step is on an item's way from waiting to its body's end. */
  predicate Early(a: Step) { a.StopBefore? || a.SkipCut? || a.Admit? || a.Refuse? || a.Work? || a.Interrupt? }

  predicate Bodily(a: Step) { a.Start? || a.BodyFails? || a.BodyReturns? || a.TakeSaved? }

  lemma FrameEarly(m: Map, s: Sys, a: Step, j: Key)
    requires Enabled(m, s, a) && Early(a) && j != a.key
    ensures SameAt(s, Apply(m, s, a), j)
  {}

  lemma FrameBodily(m: Map, s: Sys, a: Step, j: Key)
    requires Enabled(m, s, a) && Bodily(a) && j != a.key
    ensures SameAt(s, Apply(m, s, a), j)
  {}

  lemma FrameMerge(m: Map, s: Sys, a: Step, j: Key)
    requires Enabled(m, s, a) && (a.MergeAndSave? || a.MergeFails?) && j != a.key
    ensures SameAt(s, Apply(m, s, a), j)
  {}

  lemma FrameRollback(s: Sys, k: Key, j: Key)
    requires k in s.phase && s.phase[k].Saving? && j != k
    ensures SameAt(s, RolledBack(s, k), j)
  {}

  lemma FrameFailed(m: Map, s: Sys, k: Key, j: Key)
    requires k in s.phase && s.phase[k].Failing? && j != k
    ensures SameAt(s, FailedFor(m, s, k), j)
  {}

  /** An item's step changes nothing about the others. */
  lemma {:induction false} Frame(m: Map, s: Sys, a: Step, j: Key)
    requires Enabled(m, s, a) && OfItem(a) && j != a.key
    ensures SameAt(s, Apply(m, s, a), j)
  {
    if Early(a) {
      FrameEarly(m, s, a, j);
    } else if Bodily(a) {
      FrameBodily(m, s, a, j);
    } else if a.MergeAndSave? || a.MergeFails? {
      FrameMerge(m, s, a, j);
    } else if a.SaveFails? || a.TagFails? {
      FrameRollback(s, a.key, j);
    } else if a.RecordFailure? {
      FrameFailed(m, s, a.key, j);
    }
  }

  lemma {:induction false} OwnStepKeeps(m: Map, s: Sys, a: Step)
    requires Inv(m, s) && Enabled(m, s, a) && OfItem(a) && a.key in s.phase && a.key in Apply(m, s, a).phase
    requires CommitsOk(m, Apply(m, s, a).commits)
    requires Apply(m, s, a).merges == s.merges || !OthersSaving(s, a.key)
    requires Apply(m, s, a).phase[a.key].Saving? ==> !OthersSaving(s, a.key)
    requires var t := Apply(m, s, a); MergedOnce(m, t.parent, t.done, t.merges, t.left)
    requires var t := Apply(m, s, a); PhaseOk(m, t, a.key, t.phase[a.key]) && ScopeKeptAt(t, a.key)
    ensures Inv(m, Apply(m, s, a))
  {
    var t := Apply(m, s, a);
    forall j | j != a.key ensures SameAt(s, t, j) { Frame(m, s, a, j); }
    ItemKeeps(m, s, t, a.key);
  }

  /** The save that follows a merge holds the merge together with its record. */
  lemma MergedSnapConsistent(m: Map, s: Sys, k: Key, v: Value)
    requires k in s.live && k in s.done && s.done[k] == Record(Ok(v), false) && k in s.left && s.left[k] == s.live[k]
    requires MergedOnce(m, s.parent, s.done, s.merges, s.left)
    requires ScopesKept(s.done, s.saved + s.live, s.left)
    ensures Consistent(m, Capture(Merged(m, s, k, v)))
  {
    MergeKeeps(m, s, k, v);
    var t := Merged(m, s, k, v);
    forall j | j in t.done && !t.done[j].merged
      ensures t.done[j].result.Ok? && j in t.saved + t.live && j in t.left && t.left[j] == (t.saved + t.live)[j]
    {
      assert j != k && j in s.done && !s.done[j].merged;
      assert j in s.saved + s.live;
    }
  }

  lemma MergedPhaseOk(m: Map, s: Sys, k: Key)
    requires Enabled(m, s, MergeAndSave(k)) && PhaseOk(m, s, k, s.phase[k]) && s.done.Keys <= m.keys
    requires MergedOnce(m, s.parent, s.done, s.merges, s.left)
    requires ScopesKept(s.done, s.saved + s.live, s.left)
    ensures var t := Apply(m, s, MergeAndSave(k));
      PhaseOk(m, t, k, t.phase[k]) && MergedOnce(m, t.parent, t.done, t.merges, t.left)
  {
    MergeKeeps(m, s, k, s.phase[k].value);
    MergedSnapConsistent(m, s, k, s.phase[k].value);
    assert (s.merges + [Merge(k, s.live[k])])[..|s.merges|] == s.merges;
  }

  lemma MergeStepKeeps(m: Map, s: Sys, k: Key)
    requires Inv(m, s) && Enabled(m, s, MergeAndSave(k))
    ensures Inv(m, Apply(m, s, MergeAndSave(k)))
  {
    assert PhaseOk(m, s, k, s.phase[k]);
    MergedPhaseOk(m, s, k);
    OwnStepKeeps(m, s, MergeAndSave(k));
  }

  lemma SaveFailsKeeps(m: Map, s: Sys, k: Key)
    requires Inv(m, s) && Enabled(m, s, SaveFails(k))
    ensures Inv(m, Apply(m, s, SaveFails(k)))
  {
    assert PhaseOk(m, s, k, s.phase[k]);
    RollbackKeeps(m, s, k);
    OwnStepKeeps(m, s, SaveFails(k));
  }

  lemma TagFailsKeeps(m: Map, s: Sys, k: Key)
    requires Inv(m, s) && Enabled(m, s, TagFails(k))
    ensures Inv(m, Apply(m, s, TagFails(k)))
  {
    assert PhaseOk(m, s, k, s.phase[k]);
    RollbackKeeps(m, s, k);
    OwnStepKeeps(m, s, TagFails(k));
  }

  lemma StopKeeps(m: Map, s: Sys, a: Step)
    requires Inv(m, s) && Enabled(m, s, a) && (a.StopBefore? || a.Interrupt? || a.Admit?)
    ensures Inv(m, Apply(m, s, a))
  {
    var k := a.key;
    assert PhaseOk(m, s, k, s.phase[k]);
    OwnStepKeeps(m, s, a);
  }

  lemma {:induction false} StartKeeps(m: Map, s: Sys, a: Step)
    requires Inv(m, s) && Enabled(m, s, a) && (a.Start?)
    ensures Inv(m, Apply(m, s, a))
  {
    var k := a.key;
    assert PhaseOk(m, s, k, s.phase[k]);
    OwnStepKeeps(m, s, a);
  }

  lemma WorkKeeps(m: Map, s: Sys, a: Step)
    requires Inv(m, s) && Enabled(m, s, a) && (a.Work?)
    ensures Inv(m, Apply(m, s, a))
  {
    var k := a.key;
    assert PhaseOk(m, s, k, s.phase[k]);
    OwnStepKeeps(m, s, a);
  }

  lemma {:induction false} SkipKeeps(m: Map, s: Sys, a: Step)
    requires Inv(m, s) && Enabled(m, s, a) && (a.SkipCut? || a.Refuse?)
    ensures Inv(m, Apply(m, s, a))
  {
    var k := a.key;
    assert PhaseOk(m, s, k, s.phase[k]);
    RecordKeeps(m, s, k, Record(Skip, true), s.left);
    OwnStepKeeps(m, s, a);
  }

  lemma {:induction false} BodyFailsKeeps(m: Map, s: Sys, a: Step)
    requires Inv(m, s) && Enabled(m, s, a) && (a.BodyFails?)
    ensures Inv(m, Apply(m, s, a))
  {
    var k := a.key;
    assert PhaseOk(m, s, k, s.phase[k]);
    RecordKeeps(m, s, k, Record(Fail, true), s.left);
    OwnStepKeeps(m, s, a);
  }

  /** What a body leaves in its scope when it returns is what will be merged. */
  lemma ReturnKeeps(m: Map, s: Sys, a: Step)
    requires Inv(m, s) && Enabled(m, s, a) && (a.BodyReturns?)
    ensures Inv(m, Apply(m, s, a))
  {
    var k := a.key;
    assert PhaseOk(m, s, k, s.phase[k]);
    RecordKeeps(m, s, k, Record(Ok(a.value), false), s.left[k := s.live[k]]);
    OwnStepKeeps(m, s, a);
  }

  lemma TakeSavedKeeps(m: Map, s: Sys, a: Step)
    requires Inv(m, s) && Enabled(m, s, a) && (a.TakeSaved?)
    ensures Inv(m, Apply(m, s, a))
  {
    var k := a.key;
    assert PhaseOk(m, s, k, s.phase[k]);
    OwnStepKeeps(m, s, a);
  }

  lemma MergeFailsKeeps(m: Map, s: Sys, a: Step)
    requires Inv(m, s) && Enabled(m, s, a) && (a.MergeFails?)
    ensures Inv(m, Apply(m, s, a))
  {
    var k := a.key;
    assert PhaseOk(m, s, k, s.phase[k]);
    RecordKeeps(m, s, k, Record(Fail, true), s.left);
    OwnStepKeeps(m, s, a);
  }

  lemma SaveSucceedsKeeps(m: Map, s: Sys, a: Step)
    requires Inv(m, s) && Enabled(m, s, a) && (a.SaveSucceeds?)
    ensures Inv(m, Apply(m, s, a))
  {
    var k := a.key;
    assert PhaseOk(m, s, k, s.phase[k]);
    OwnStepKeeps(m, s, a);
  }

  lemma {:induction false} RecordFailureKeeps(m: Map, s: Sys, a: Step)
    requires Inv(m, s) && Enabled(m, s, a) && a.RecordFailure?
    ensures Inv(m, Apply(m, s, a))
  {
    var k := a.key;
    assert PhaseOk(m, s, k, s.phase[k]);
    if m.strict || s.phase[k].late {
      FailureUnrecorded(m, s, k);
    } else {
      RecordKeeps(m, s, k, Record(Fail, true), s.left);
      OwnStepKeeps(m, s, a);
    }
  }

  lemma FailureUnrecorded(m: Map, s: Sys, k: Key)
    requires Inv(m, s) && Enabled(m, s, RecordFailure(k)) && (m.strict || s.phase[k].late)
    ensures Inv(m, Apply(m, s, RecordFailure(k)))
  {
    assert PhaseOk(m, s, k, s.phase[k]);
    OwnStepKeeps(m, s, RecordFailure(k));
  }

  lemma SetKeeps(m: Map, s: Sys, a: Step)
    requires Inv(m, s) && (a.SetHalt? || a.SetSignal?)
    ensures Inv(m, Apply(m, s, a))
  {
    forall k | k in s.phase ensures PhaseOk(m, Apply(m, s, a), k, s.phase[k]) {
      assert PhaseOk(m, s, k, s.phase[k]);
    }
  }

  lemma CheckpointKeeps(m: Map, s: Sys)
    requires Inv(m, s)
    ensures Inv(m, Apply(m, s, Checkpoint))
  {
    var t := Apply(m, s, Checkpoint);
    assert Consistent(m, Capture(s));
    forall k | k in t.phase ensures PhaseOk(m, t, k, t.phase[k]) {
      assert PhaseOk(m, s, k, s.phase[k]);
    }
  }

  /** Every step keeps the map consistent. */
  lemma {:induction false} StepKeeps(m: Map, s: Sys, a: Step)
    requires Inv(m, s) && Enabled(m, s, a)
    ensures Inv(m, Apply(m, s, a))
  {
    match a
    case SetHalt => SetKeeps(m, s, a);
    case SetSignal => SetKeeps(m, s, a);
    case Checkpoint => CheckpointKeeps(m, s);
    case CrashAndResume(snap) => CheckoutKeeps(m, snap, s.commits);
    case StopBefore(_) => StopKeeps(m, s, a);
    case Interrupt(_) => StopKeeps(m, s, a);
    case Admit(_) => StopKeeps(m, s, a);
    case SkipCut(_) => SkipKeeps(m, s, a);
    case Refuse(_) => SkipKeeps(m, s, a);
    case Start(_, _) => StartKeeps(m, s, a);
    case Work(_, _) => WorkKeeps(m, s, a);
    case BodyFails(_) => BodyFailsKeeps(m, s, a);
    case BodyReturns(_, _) => ReturnKeeps(m, s, a);
    case TakeSaved(_) => TakeSavedKeeps(m, s, a);
    case MergeAndSave(k) => MergeStepKeeps(m, s, k);
    case MergeFails(_) => MergeFailsKeeps(m, s, a);
    case SaveSucceeds(_) => SaveSucceedsKeeps(m, s, a);
    case SaveFails(k) => SaveFailsKeeps(m, s, k);
    case TagFails(k) => TagFailsKeeps(m, s, k);
    case RecordFailure(_) => RecordFailureKeeps(m, s, a);
  }

  // ----- whole runs -----

  /** The state after steps from s, when each is enabled in turn. */
  function From(m: Map, s: Sys, steps: seq<Step>): Option<Sys> {
    if steps == [] then Some(s)
    else match From(m, s, steps[..|steps| - 1])
      case None => None
      case Some(t) => if Enabled(m, t, steps[|steps| - 1]) then Some(Apply(m, t, steps[|steps| - 1])) else None
  }

  function After(m: Map, steps: seq<Step>): Option<Sys> { From(m, Init(m), steps) }

  predicate Finished(m: Map, s: Sys) {
    forall k | k in m.keys :: k in s.phase && s.phase[k].Over?
  }

  predicate EndedAs(s: Sys, k: Key, r: Result) { k in s.phase && s.phase[k] == Over(r) }

  lemma {:induction false} StaysConsistent(m: Map, s: Sys, steps: seq<Step>)
    requires Inv(m, s) && From(m, s, steps).Some?
    ensures Inv(m, From(m, s, steps).value)
  {
    if steps != [] {
      StaysConsistent(m, s, steps[..|steps| - 1]);
      StepKeeps(m, From(m, s, steps[..|steps| - 1]).value, steps[|steps| - 1]);
    }
  }

  /** Whatever the items, checkpoints, failed saves, crashes and resumes do, in any order: the parent
      is the fold of exactly the merges its records say, and every snapshot that can be resumed is
      consistent. */
  lemma {:induction false} AlwaysConsistent(m: Map, steps: seq<Step>)
    requires After(m, steps).Some?
    ensures Inv(m, After(m, steps).value)
  {
    CheckoutKeeps(m, Snap(m.base, map[], map[], false, [], map[]), {});
    StaysConsistent(m, Init(m), steps);
  }

  /** The parent is the initial payload folded with one merge for each item that succeeded, of the
      scope its body left, and with no other. */
  ghost predicate OneMergePerSuccess(m: Map, s: Sys) {
    && s.parent == Fold(m, s.merges)
    && Distinct(s.merges)
    && (forall k :: Has(s.merges, k) <==> k in m.keys && exists v :: EndedAs(s, k, Ok(v)))
    && (forall i :: 0 <= i < |s.merges| ==> s.merges[i].key in s.left && s.merges[i].scope == s.left[s.merges[i].key])
  }

  lemma FinishedMerged(m: Map, s: Sys)
    requires Inv(m, s) && Finished(m, s)
    ensures OneMergePerSuccess(m, s)
  {
    forall k ensures Has(s.merges, k) <==> k in m.keys && exists v :: EndedAs(s, k, Ok(v)) {
      assert Has(s.merges, k) <==> Successful(s.done, k);
      if k in m.keys {
        assert PhaseOk(m, s, k, s.phase[k]);
        if s.phase[k].result.Ok? {
          assert EndedAs(s, k, Ok(s.phase[k].result.value));
        }
      }
    }
  }

  /** Whenever the map finishes, its parent holds exactly one merge for each item that succeeded. */
  lemma {:induction false} FinishedMapMergedOnce(m: Map, steps: seq<Step>)
    requires After(m, steps).Some?
    requires Finished(m, After(m, steps).value)
    ensures OneMergePerSuccess(m, After(m, steps).value)
  {
    AlwaysConsistent(m, steps);
    FinishedMerged(m, After(m, steps).value);
  }

  /** An item whose body completed before a checkpoint always finds its scope after it: its merge
      needs no second run of the body. */
  lemma {:induction false} SavedMergeFindsItsScope(m: Map, steps: seq<Step>, k: Key)
    requires After(m, steps).Some? && Enabled(m, After(m, steps).value, TakeSaved(k))
    ensures var s := After(m, steps).value;
      && k in s.saved && k in s.left && s.saved[k] == s.left[k]
      && Apply(m, s, TakeSaved(k)).phase == s.phase[k := Returned(s.phase[k].value, true)]
  {
    AlwaysConsistent(m, steps);
    var s := After(m, steps).value;
    assert PhaseOk(m, s, k, s.phase[k]);
    assert k in s.saved + s.live;
  }

  // ----- a cut -----

  /** Item k has not started and, the signal being set, will not. */
  predicate CutOff(s: Sys, k: Key) {
    && s.cut && k in s.phase
    && match s.phase[k]
       case Waiting => k !in s.saved
       case Interrupted => true
       case Over(r) => r.Skip?
       case _ => false
  }

  lemma OtherStepsLeave(m: Map, s: Sys, a: Step, k: Key)
    requires Enabled(m, s, a) && !a.CrashAndResume? && k in s.phase && s.cut
    requires a.SetHalt? || a.SetSignal? || a.Checkpoint? || a.key != k
    ensures var t := Apply(m, s, a);
      t.cut && k in t.phase && t.phase[k] == s.phase[k] && (k in t.saved <==> k in s.saved)
  {
    if OfItem(a) {
      Frame(m, s, a, k);
    }
  }

  lemma StepStaysCutOff(m: Map, s: Sys, a: Step, k: Key)
    requires CutOff(s, k) && Enabled(m, s, a) && !a.CrashAndResume?
    ensures CutOff(Apply(m, s, a), k)
  {
    if a.SetHalt? || a.SetSignal? || a.Checkpoint? || a.key != k {
      OtherStepsLeave(m, s, a, k);
    } else {
      assert a.StopBefore? || a.SkipCut?;
    }
  }

  /** Once the map fast-forwards no new item starts, whatever the others do: it is skipped, unless the
      halt stops it first. An item with a saved scope had started, and continues. */
  lemma {:induction false} CutStartsNoItem(m: Map, steps: seq<Step>, more: seq<Step>, k: Key)
    requires After(m, steps).Some? && CutOff(After(m, steps).value, k)
    requires After(m, steps + more).Some? && forall i | 0 <= i < |more| :: !more[i].CrashAndResume?
    ensures CutOff(After(m, steps + more).value, k)
    decreases |more|
  {
    if more == [] {
      assert steps + more == steps;
    } else {
      var front, all := more[..|more| - 1], steps + more;
      assert all[..|all| - 1] == steps + front && all[|all| - 1] == more[|more| - 1];
      CutStartsNoItem(m, steps, front, k);
      StepStaysCutOff(m, After(m, steps + front).value, more[|more| - 1], k);
    }
  }

  // ----- the failure a cursor does not record -----

  /** A snapshot holds an item as completed, with its merge still to come. */
  predicate Owes(snap: Snap, k: Key) { k in snap.done && !snap.done[k].merged }

  /** What a resumed map's item carries of its snapshot: an item whose merge was owed is only merged,
      and its failure is recorded nowhere; any other runs, and its failure is recorded. */
  ghost predicate Carries(s: Sys, k: Key, owed: bool) {
    k in s.phase ==>
      match s.phase[k]
      case Waiting => !owed
      case Asking => !owed
      case Running => !owed
      case Interrupted => !owed
      case Unmerged(_) => owed
      case Returned(_, late) => late == owed
      case Saving(_, late, _, _, _) => late == owed
      case Failing(late) => late == owed
      case Raised => true
      case Over(r) => r.Fail? ==> (k !in s.done <==> owed)
  }

  lemma {:induction false} StepCarries(m: Map, s: Sys, a: Step, k: Key, owed: bool)
    requires Inv(m, s) && Enabled(m, s, a) && !a.CrashAndResume? && Carries(s, k, owed)
    ensures Carries(Apply(m, s, a), k, owed)
  {
    if OfItem(a) && a.key != k {
      Frame(m, s, a, k);
    } else if OfItem(a) {
      assert PhaseOk(m, s, k, s.phase[k]);
      if Early(a) {
        EarlyCarries(m, s, a, owed);
      } else if Bodily(a) {
        BodilyCarries(m, s, a, owed);
      } else if a.RecordFailure? {
        FailureCarries(m, s, k, owed);
      } else {
        MergeCarries(m, s, a, owed);
      }
    }
  }

  lemma EarlyCarries(m: Map, s: Sys, a: Step, owed: bool)
    requires Early(a) && Enabled(m, s, a) && a.key in s.phase && Carries(s, a.key, owed) && PhaseOk(m, s, a.key, s.phase[a.key])
    ensures Carries(Apply(m, s, a), a.key, owed)
  {}

  lemma {:induction false} BodilyCarries(m: Map, s: Sys, a: Step, owed: bool)
    requires Bodily(a) && Enabled(m, s, a) && a.key in s.phase && Carries(s, a.key, owed) && PhaseOk(m, s, a.key, s.phase[a.key])
    requires ScopesKept(s.done, s.saved + s.live, s.left)
    ensures Carries(Apply(m, s, a), a.key, owed)
  {
    if a.TakeSaved? {
      assert a.key in s.saved + s.live;
    }
  }

  lemma MergeCarries(m: Map, s: Sys, a: Step, owed: bool)
    requires OfItem(a) && !Early(a) && !Bodily(a) && !a.RecordFailure?
    requires Enabled(m, s, a) && a.key in s.phase && Carries(s, a.key, owed)
    ensures Carries(Apply(m, s, a), a.key, owed)
  {}

  lemma FailureCarries(m: Map, s: Sys, k: Key, owed: bool)
    requires k in s.phase && s.phase[k].Failing? && Carries(s, k, owed) && k !in s.done
    ensures Carries(FailedFor(m, s, k), k, owed)
  {}

  lemma CheckoutCarries(m: Map, snap: Snap, commits: set<Snap>, k: Key)
    requires Consistent(m, snap)
    ensures Carries(Checkout(m, snap, commits), k, Owes(snap, k))
  {}

  lemma {:induction false} RunCarries(m: Map, snap: Snap, commits: set<Snap>, steps: seq<Step>, k: Key)
    requires Consistent(m, snap) && snap.done.Keys <= m.keys && CommitsOk(m, commits)
    requires From(m, Checkout(m, snap, commits), steps).Some? && forall i | 0 <= i < |steps| :: !steps[i].CrashAndResume?
    ensures var s := From(m, Checkout(m, snap, commits), steps).value;
      Inv(m, s) && Carries(s, k, Owes(snap, k))
  {
    if steps == [] {
      CheckoutKeeps(m, snap, commits);
      CheckoutCarries(m, snap, commits, k);
    } else {
      var front, last := steps[..|steps| - 1], steps[|steps| - 1];
      var s := From(m, Checkout(m, snap, commits), front).value;
      RunCarries(m, snap, commits, front, k);
      StepKeeps(m, s, last);
      StepCarries(m, s, last, k, Owes(snap, k));
    }
  }

  /** An item that ends as failed is missing from the cursor exactly when the snapshot the map was
      resumed from held it as completed and not yet merged: then the failure is reported, and not
      recorded. */
  lemma FailedUnrecordedExactly(m: Map, snap: Snap, commits: set<Snap>, steps: seq<Step>, k: Key)
    requires Consistent(m, snap) && snap.done.Keys <= m.keys && CommitsOk(m, commits)
    requires From(m, Checkout(m, snap, commits), steps).Some? && forall i | 0 <= i < |steps| :: !steps[i].CrashAndResume?
    requires EndedAs(From(m, Checkout(m, snap, commits), steps).value, k, Fail)
    ensures k !in From(m, Checkout(m, snap, commits), steps).value.done <==> k in snap.done && !snap.done[k].merged
  {
    RunCarries(m, snap, commits, steps, k);
  }

  /** One item runs until its body returns. */
  lemma RunsToReturn(m: Map, k: Key, v: Value) returns (steps: seq<Step>)
    requires m.keys == {k}
    ensures After(m, steps).Some?
    ensures var s := After(m, steps).value;
      && s.phase == map[k := Returned(v, false)] && s.live == map[k := v] && s.saved == map[]
      && s.done == map[k := Record(Ok(v), false)]
  {
    steps := [];
    Extended(m, steps, Start(k, v));
    steps := steps + [Start(k, v)];
    Extended(m, steps, Admit(k));
    steps := steps + [Admit(k)];
    Extended(m, steps, BodyReturns(k, v));
    steps := steps + [BodyReturns(k, v)];
  }

  /** A checkpoint, and a crash after which the run continues from it. */
  lemma ResumedHere(m: Map, before: seq<Step>) returns (steps: seq<Step>)
    requires After(m, before).Some?
    ensures After(m, steps).Some?
    ensures var s := After(m, before).value;
      After(m, steps).value == Checkout(m, Capture(s), s.commits + {Capture(s)})
  {
    steps := before;
    var snap := Capture(After(m, steps).value);
    Extended(m, steps, Checkpoint);
    steps := steps + [Checkpoint];
    Extended(m, steps, CrashAndResume(snap));
    steps := steps + [CrashAndResume(snap)];
  }

  /** Such a run: one item's body returns, a checkpoint is taken before its merge, the process
      crashes, and the resumed map's merge fails. */
  lemma UnrecordedFailureHappens(m: Map, k: Key, v: Value) returns (steps: seq<Step>)
    requires m.keys == {k} && !m.strict
    ensures After(m, steps).Some? && EndedAs(After(m, steps).value, k, Fail) && k !in After(m, steps).value.done
  {
    steps := RunsToReturn(m, k, v);
    steps := ResumedHere(m, steps);
    steps := FailsLate(m, steps, k, v);
  }

  /** A resumed map whose saved merge fails. */
  lemma FailsLate(m: Map, before: seq<Step>, k: Key, v: Value) returns (steps: seq<Step>)
    requires !m.strict && After(m, before).Some? && k in After(m, before).value.phase
    requires After(m, before).value.phase[k] == Unmerged(v) && k in After(m, before).value.saved
    requires LockFree(After(m, before).value)
    ensures After(m, steps).Some? && EndedAs(After(m, steps).value, k, Fail) && k !in After(m, steps).value.done
  {
    steps := before;
    Extended(m, steps, TakeSaved(k));
    steps := steps + [TakeSaved(k)];
    Extended(m, steps, MergeFails(k));
    steps := steps + [MergeFails(k)];
    Extended(m, steps, RecordFailure(k));
    steps := steps + [RecordFailure(k)];
  }

  lemma Extended(m: Map, steps: seq<Step>, a: Step)
    requires After(m, steps).Some? && Enabled(m, After(m, steps).value, a)
    ensures After(m, steps + [a]) == Some(Apply(m, After(m, steps).value, a))
  {
    assert (steps + [a])[..|steps|] == steps;
  }
}
