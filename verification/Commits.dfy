/** A flow's history in a content-addressed repository, and the writers that append to it.

    Each call of the store is one atomic step; any number of writers take steps in any order.
    Commit ids are an injective hash of the commit.
 */
module Commits {
  import opened Wrappers

  type Id(==, !new)

  type Meta(==, !new)

  /** A stored blob or tree. */
  type Blob(==, !new)

  /** tree: every object a snapshot is made of; empty for a commit without state. */
  datatype Commit = Commit(parent: Option<Id>, tree: set<Blob>, meta: Meta)

  const HEAD := "HEAD"

  /** age: when a commit was first put. */
  datatype Repo = Repo(objects: map<Id, Commit>, age: map<Id, nat>, blobs: set<Blob>, refs: map<string, Id>)

  const EMPTY := Repo(map[], map[], {}, map[])

  ghost predicate Injective(hash: Commit -> Id) {
    forall c, d :: hash(c) == hash(d) ==> c == d
  }

  function GetRef(r: Repo, name: string): Option<Id> {
    if name in r.refs then Some(r.refs[name]) else None
  }

  function Head(r: Repo): Option<Id> { GetRef(r, HEAD) }

  /** A no-op when the repository holds the object already. */
  function PutCommit(hash: Commit -> Id, r: Repo, c: Commit): Repo {
    if hash(c) in r.objects then r
    else r.(objects := r.objects[hash(c) := c], age := r.age[hash(c) := |r.objects|])
  }

  /** Compare-and-set. */
  function SetRef(r: Repo, name: string, id: Id, expected: Option<Id>): Repo {
    if GetRef(r, name) == expected then r.(refs := r.refs[name := id]) else r
  }

  /** A parent is older than its child, when the repository holds it. */
  ghost predicate Ordered(r: Repo) {
    && r.age.Keys == r.objects.Keys
    && forall id | id in r.objects :: ParentOlder(r, id)
  }

  ghost predicate ParentOlder(r: Repo, id: Id)
    requires id in r.objects && r.age.Keys == r.objects.Keys
  {
    var p := r.objects[id].parent;
    p.Some? && p.value in r.objects ==> r.age[p.value] < r.age[id]
  }

  /** The repository holds everything commit id needs. */
  ghost predicate Complete(hash: Commit -> Id, r: Repo, id: Id)
    requires id in r.objects
  {
    var c := r.objects[id];
    hash(c) == id && c.tree <= r.blobs && (c.parent.Some? ==> c.parent.value in r.objects)
  }

  /** Every ref points into a complete, well-founded history. */
  ghost predicate Closed(hash: Commit -> Id, r: Repo) {
    && Ordered(r)
    && (forall id | id in r.objects :: Complete(hash, r, id))
    && (forall id | id in r.age :: r.age[id] < |r.objects|)
    && (forall name | name in r.refs :: r.refs[name] in r.objects)
  }

  /** The chain of commits from id through the parents the repository holds, newest first. */
  ghost function Line(r: Repo, id: Id): (line: seq<Id>)
    requires Ordered(r) && id in r.objects
    ensures id in line && (forall x | x in line :: x in r.objects && r.age[x] <= r.age[id])
    decreases r.age[id]
  {
    assert ParentOlder(r, id);
    var p := r.objects[id].parent;
    if p.Some? && p.value in r.objects then [id] + Line(r, p.value) else [id]
  }

  ghost function LineOf(r: Repo, head: Option<Id>): seq<Id>
    requires Ordered(r) && (head.Some? ==> head.value in r.objects)
  {
    if head.Some? then Line(r, head.value) else []
  }

  ghost predicate IsSuffix(s: seq<Id>, t: seq<Id>) {
    |s| <= |t| && t[|t| - |s|..] == s
  }

  // ----- writers -----

  /** What a writer's append or tag is in the middle of. */
  datatype Doing = Idle | Moving(id: Id) | Tagging(name: string, id: Id, expected: Option<Id>)

  /** A run's context: what it caches of the history. */
  datatype Ctx = Ctx(loaded: bool, parent: Option<Id>, head: Option<Id>, written: set<Blob>, doing: Doing)

  const FORGOTTEN := Ctx(false, None, None, {}, Idle)

  type Writer(==, !new)

  datatype Sys = Sys(repo: Repo, ctx: map<Writer, Ctx>)

  datatype Step =
    | BeginRun(w: Writer)
    | ContinueFrom(w: Writer, id: Id, expected: Option<Id>)
    | PutBlob(w: Writer, blob: Blob)
    | LoadHead(w: Writer)
    | Put(w: Writer, tree: set<Blob>, meta: Meta)
    | MoveHead(w: Writer)
    | ReadTag(w: Writer, name: string, id: Id)
    | MoveTag(w: Writer)

  predicate Enabled(s: Sys, a: Step) {
    a.BeginRun? || (
      && a.w in s.ctx
      && match a
         case BeginRun(_) => true
         case ContinueFrom(w, id, expected) =>
           s.ctx[w].doing.Idle? && id in s.repo.objects && (expected.Some? ==> expected.value in s.repo.objects)
         case PutBlob(_, _) => true
         case LoadHead(w) => s.ctx[w].doing.Idle? && !s.ctx[w].loaded
         case Put(w, tree, _) => s.ctx[w].doing.Idle? && s.ctx[w].loaded && tree <= s.ctx[w].written
         case MoveHead(w) => s.ctx[w].doing.Moving?
         case ReadTag(w, name, id) => s.ctx[w].doing.Idle? && name != HEAD && id in s.repo.objects
         case MoveTag(w) => s.ctx[w].doing.Tagging?)
  }

  function Apply(hash: Commit -> Id, s: Sys, a: Step): Sys
    requires Enabled(s, a)
  {
    var r := s.repo;
    if a.BeginRun? then s.(ctx := s.ctx[a.w := FORGOTTEN])
    else
      var c := s.ctx[a.w];
      match a
      case ContinueFrom(w, id, expected) =>
        s.(ctx := s.ctx[w := c.(loaded := true, parent := Some(id), head := if expected.Some? then expected else Head(r))])
      case PutBlob(w, blob) =>
        if blob in c.written then s
        else Sys(r.(blobs := r.blobs + {blob}), s.ctx[w := c.(written := c.written + {blob})])
      case LoadHead(w) => s.(ctx := s.ctx[w := c.(loaded := true, parent := Head(r), head := Head(r))])
      case Put(w, tree, meta) =>
        var commit := Commit(c.parent, tree, meta);
        Sys(PutCommit(hash, r, commit), s.ctx[w := c.(doing := Moving(hash(commit)))])
      case MoveHead(w) =>
        var id := c.doing.id;
        if Head(r) == c.head
        then Sys(SetRef(r, HEAD, id, c.head), s.ctx[w := c.(parent := Some(id), head := Some(id), doing := Idle)])
        else s.(ctx := s.ctx[w := c.(doing := Idle)])
      case ReadTag(w, name, id) => s.(ctx := s.ctx[w := c.(doing := Tagging(name, id, GetRef(r, name)))])
      case MoveTag(w) =>
        var d := c.doing;
        Sys(SetRef(r, d.name, d.id, d.expected), s.ctx[w := c.(doing := Idle)])
  }

  // ----- every ref points into a closed history -----

  ghost predicate Known(r: Repo, id: Option<Id>) { id.Some? ==> id.value in r.objects }

  ghost predicate CtxOk(r: Repo, c: Ctx) {
    && Known(r, c.parent) && Known(r, c.head) && c.written <= r.blobs
    && match c.doing
       case Idle => true
       case Moving(id) => c.loaded && id in r.objects && r.objects[id].parent == c.parent
       case Tagging(name, id, _) => name != HEAD && id in r.objects
  }

  ghost predicate Inv(hash: Commit -> Id, s: Sys) {
    Closed(hash, s.repo) && forall w | w in s.ctx :: CtxOk(s.repo, s.ctx[w])
  }

  /** t holds what r holds. */
  ghost predicate Grows(r: Repo, t: Repo) {
    && r.blobs <= t.blobs
    && forall id | id in r.objects :: id in t.objects && t.objects[id] == r.objects[id] && id in r.age && id in t.age && t.age[id] == r.age[id]
  }

  lemma PutCloses(hash: Commit -> Id, r: Repo, c: Commit)
    requires Injective(hash) && Closed(hash, r) && c.tree <= r.blobs && Known(r, c.parent)
    ensures Closed(hash, PutCommit(hash, r, c)) && Grows(r, PutCommit(hash, r, c))
    ensures hash(c) in PutCommit(hash, r, c).objects && PutCommit(hash, r, c).objects[hash(c)] == c
  {
    var t := PutCommit(hash, r, c);
    if hash(c) in r.objects {
      assert Complete(hash, r, hash(c));
    } else {
      forall id | id in t.objects ensures ParentOlder(t, id) && Complete(hash, t, id) {
        if id != hash(c) {
          assert ParentOlder(r, id) && Complete(hash, r, id);
        }
      }
    }
  }

  lemma StepGrows(hash: Commit -> Id, s: Sys, a: Step)
    requires Injective(hash) && Inv(hash, s) && Enabled(s, a)
    ensures Closed(hash, Apply(hash, s, a).repo) && Grows(s.repo, Apply(hash, s, a).repo)
  {
    var t := Apply(hash, s, a);
    if !a.BeginRun? {
      assert CtxOk(s.repo, s.ctx[a.w]);
    }
    if a.Put? {
      PutCloses(hash, s.repo, Commit(s.ctx[a.w].parent, a.tree, a.meta));
    } else {
      forall id | id in t.repo.objects ensures ParentOlder(t.repo, id) && Complete(hash, t.repo, id) {
        assert ParentOlder(s.repo, id) && Complete(hash, s.repo, id);
      }
    }
  }

  lemma OtherKeeps(hash: Commit -> Id, s: Sys, a: Step, w: Writer)
    requires Enabled(s, a) && a.w != w
    ensures var t := Apply(hash, s, a);
      (w in t.ctx <==> w in s.ctx) && (w in s.ctx ==> t.ctx[w] == s.ctx[w])
  {}

  lemma CtxStays(r: Repo, t: Repo, c: Ctx)
    requires CtxOk(r, c) && Grows(r, t)
    ensures CtxOk(t, c)
  {}

  lemma OwnCtx(hash: Commit -> Id, s: Sys, a: Step)
    requires Injective(hash) && Closed(hash, s.repo) && Enabled(s, a) && (a.BeginRun? || CtxOk(s.repo, s.ctx[a.w]))
    ensures CtxOk(Apply(hash, s, a).repo, Apply(hash, s, a).ctx[a.w])
  {
    if a.Put? {
      PutCloses(hash, s.repo, Commit(s.ctx[a.w].parent, a.tree, a.meta));
    }
  }

  lemma {:induction false} StepCloses(hash: Commit -> Id, s: Sys, a: Step)
    requires Injective(hash) && Inv(hash, s) && Enabled(s, a)
    ensures Inv(hash, Apply(hash, s, a)) && Grows(s.repo, Apply(hash, s, a).repo)
  {
    var t := Apply(hash, s, a);
    StepGrows(hash, s, a);
    OwnCtx(hash, s, a);
    forall w | w in t.ctx && w != a.w ensures CtxOk(t.repo, t.ctx[w]) {
      OtherKeeps(hash, s, a, w);
      CtxStays(s.repo, t.repo, s.ctx[w]);
    }
  }

  function After(hash: Commit -> Id, s: Sys, steps: seq<Step>): Option<Sys>
    decreases |steps|
  {
    if steps == [] then Some(s)
    else if Enabled(s, steps[0]) then After(hash, Apply(hash, s, steps[0]), steps[1..])
    else None
  }

  /** Whatever the writers do, every ref points into a complete history whose parents are older than
      their children, and nothing once put goes away. */
  lemma {:induction false} AlwaysClosed(hash: Commit -> Id, s: Sys, steps: seq<Step>)
    requires Injective(hash) && Inv(hash, s) && After(hash, s, steps).Some?
    ensures Inv(hash, After(hash, s, steps).value) && Grows(s.repo, After(hash, s, steps).value.repo)
    decreases |steps|
  {
    if steps != [] {
      StepCloses(hash, s, steps[0]);
      AlwaysClosed(hash, Apply(hash, s, steps[0]), steps[1..]);
    }
  }

  lemma InitiallyClosed(hash: Commit -> Id)
    ensures Inv(hash, Sys(EMPTY, map[]))
  {}

  /** A commit's line never changes. */
  lemma {:induction false} LineStays(r: Repo, t: Repo, id: Id)
    requires Ordered(r) && Ordered(t) && Grows(r, t) && id in r.objects
    requires forall x | x in r.objects :: Known(r, r.objects[x].parent)
    ensures Line(t, id) == Line(r, id)
    decreases r.age[id]
  {
    assert ParentOlder(r, id);
    assert Known(r, r.objects[id].parent);
    var p := r.objects[id].parent;
    if p.Some? {
      LineStays(r, t, p.value);
    }
  }

  // ----- what an append expects -----

  ghost predicate Others(steps: seq<Step>, w: Writer) { forall a | a in steps :: a.w != w }

  /** Other writers' steps change nothing a writer caches. */
  lemma {:induction false} OthersKeep(hash: Commit -> Id, s: Sys, others: seq<Step>, w: Writer)
    requires Injective(hash) && Inv(hash, s) && w in s.ctx && Others(others, w) && After(hash, s, others).Some?
    ensures var t := After(hash, s, others).value;
      Inv(hash, t) && w in t.ctx && t.ctx[w] == s.ctx[w]
    decreases |others|
  {
    if others != [] {
      StepCloses(hash, s, others[0]);
      OtherKeeps(hash, s, others[0], w);
      OthersKeep(hash, Apply(hash, s, others[0]), others[1..], w);
    }
  }

  lemma PutsAndMoves(hash: Commit -> Id, s: Sys, w: Writer, tree: set<Blob>, meta: Meta)
    requires w in s.ctx && s.ctx[w].doing.Idle? && s.ctx[w].loaded && tree <= s.ctx[w].written
    ensures var commit := Commit(s.ctx[w].parent, tree, meta);
      var end := After(hash, s, [Put(w, tree, meta), MoveHead(w)]);
      && end.Some? && end.value.repo.objects == PutCommit(hash, s.repo, commit).objects
      && w in end.value.ctx
      && if Head(s.repo) == s.ctx[w].head
         then end.value.repo.refs == s.repo.refs[HEAD := hash(commit)]
           && end.value.ctx[w] == s.ctx[w].(parent := Some(hash(commit)), head := Some(hash(commit)))
         else end.value.repo.refs == s.repo.refs && end.value.ctx[w] == s.ctx[w]
  {
    var s2 := Apply(hash, s, Put(w, tree, meta));
    assert [Put(w, tree, meta), MoveHead(w)][1..] == [MoveHead(w)];
    assert [MoveHead(w)][1..] == [];
    assert After(hash, s2, [MoveHead(w)]) == Some(Apply(hash, s2, MoveHead(w)));
  }

  /** An append from a loaded context: its commit is put, and HEAD moves to it when it is where the
      context has it. */
  lemma {:induction false} Appends(hash: Commit -> Id, s: Sys, w: Writer, tree: set<Blob>, meta: Meta)
    requires Injective(hash) && Inv(hash, s)
    requires w in s.ctx && s.ctx[w].doing.Idle? && s.ctx[w].loaded && tree <= s.ctx[w].written
    ensures var commit := Commit(s.ctx[w].parent, tree, meta);
      var end := After(hash, s, [Put(w, tree, meta), MoveHead(w)]);
      && end.Some? && hash(commit) in end.value.repo.objects && end.value.repo.objects[hash(commit)] == commit
      && end.value.repo.refs == if Head(s.repo) == s.ctx[w].head then s.repo.refs[HEAD := hash(commit)] else s.repo.refs
  {
    assert CtxOk(s.repo, s.ctx[w]);
    PutCloses(hash, s.repo, Commit(s.ctx[w].parent, tree, meta));
    PutsAndMoves(hash, s, w, tree, meta);
  }

  /** A run that continues from a commit, whatever other writers do before its first append: that
      append's commit is on the named one, and HEAD moves to it exactly when HEAD then is the one the
      caller named as expected, or, when it named none, still the one it was. */
  lemma {:induction false} ContinuedAppend(hash: Commit -> Id, s: Sys, w: Writer, id: Id, expected: Option<Id>,
                                           others: seq<Step>, tree: set<Blob>, meta: Meta)
    requires Injective(hash) && Inv(hash, s) && Enabled(s, ContinueFrom(w, id, expected)) && tree <= s.ctx[w].written
    requires Others(others, w) && After(hash, s, [ContinueFrom(w, id, expected)] + others).Some?
    ensures var t := After(hash, s, [ContinueFrom(w, id, expected)] + others).value;
      var commit := Commit(Some(id), tree, meta);
      var end := After(hash, t, [Put(w, tree, meta), MoveHead(w)]);
      && end.Some? && hash(commit) in end.value.repo.objects && end.value.repo.objects[hash(commit)] == commit
      && match expected
         case Some(e) =>
           end.value.repo.refs == if Head(t.repo) == Some(e) then t.repo.refs[HEAD := hash(commit)] else t.repo.refs
         case None =>
           end.value.repo.refs == if Head(t.repo) == Head(s.repo) then t.repo.refs[HEAD := hash(commit)] else t.repo.refs
  {
    var a := ContinueFrom(w, id, expected);
    var u := Apply(hash, s, a);
    StepCloses(hash, s, a);
    assert ([a] + others)[1..] == others;
    OthersKeep(hash, u, others, w);
    Appends(hash, After(hash, u, others).value, w, tree, meta);
  }

  /** A run that reads HEAD appends on it, and moves it exactly when it still is what it read. */
  lemma {:induction false} ReadAppend(hash: Commit -> Id, s: Sys, w: Writer, others: seq<Step>, tree: set<Blob>, meta: Meta)
    requires Injective(hash) && Inv(hash, s) && Enabled(s, LoadHead(w)) && tree <= s.ctx[w].written
    requires Others(others, w) && After(hash, s, [LoadHead(w)] + others).Some?
    ensures var t := After(hash, s, [LoadHead(w)] + others).value;
      var commit := Commit(Head(s.repo), tree, meta);
      var end := After(hash, t, [Put(w, tree, meta), MoveHead(w)]);
      && end.Some?
      && end.value.repo.refs == if Head(t.repo) == Head(s.repo) then t.repo.refs[HEAD := hash(commit)] else t.repo.refs
  {
    var u := Apply(hash, s, LoadHead(w));
    StepCloses(hash, s, LoadHead(w));
    assert ([LoadHead(w)] + others)[1..] == others;
    OthersKeep(hash, u, others, w);
    Appends(hash, After(hash, u, others).value, w, tree, meta);
  }

  /** A new run has forgotten what the last one read and put: whatever others did since, its first
      append reads HEAD. */
  lemma {:induction false} NewRunReads(hash: Commit -> Id, s: Sys, w: Writer, others: seq<Step>)
    requires Injective(hash) && Inv(hash, s)
    requires Others(others, w) && After(hash, s, [BeginRun(w)] + others).Some?
    ensures var t := After(hash, s, [BeginRun(w)] + others).value;
      Inv(hash, t) && Enabled(t, LoadHead(w)) && t.ctx[w].written == {}
  {
    var u := Apply(hash, s, BeginRun(w));
    StepCloses(hash, s, BeginRun(w));
    assert ([BeginRun(w)] + others)[1..] == others;
    OthersKeep(hash, u, others, w);
  }

  /** A run that appended appends its next commit on that one, unless HEAD left it meanwhile. */
  lemma {:induction false} LaterAppend(hash: Commit -> Id, s: Sys, w: Writer, before: Id, others: seq<Step>, tree: set<Blob>, meta: Meta)
    requires Injective(hash) && Inv(hash, s) && Enabled(s, MoveHead(w)) && s.ctx[w].doing.id == before
    requires Head(s.repo) == s.ctx[w].head && tree <= s.ctx[w].written
    requires Others(others, w) && After(hash, s, [MoveHead(w)] + others).Some?
    ensures var t := After(hash, s, [MoveHead(w)] + others).value;
      var commit := Commit(Some(before), tree, meta);
      var end := After(hash, t, [Put(w, tree, meta), MoveHead(w)]);
      && end.Some?
      && end.value.repo.refs == if Head(t.repo) == Some(before) then t.repo.refs[HEAD := hash(commit)] else t.repo.refs
  {
    var u := Apply(hash, s, MoveHead(w));
    StepCloses(hash, s, MoveHead(w));
    assert CtxOk(s.repo, s.ctx[w]);
    assert ([MoveHead(w)] + others)[1..] == others;
    OthersKeep(hash, u, others, w);
    Appends(hash, After(hash, u, others).value, w, tree, meta);
  }

  /** A tag moves exactly when it still points where it did when it was read. */
  lemma {:induction false} TagMoves(hash: Commit -> Id, s: Sys, w: Writer, name: string, id: Id, others: seq<Step>)
    requires Injective(hash) && Inv(hash, s) && Enabled(s, ReadTag(w, name, id))
    requires Others(others, w) && After(hash, s, [ReadTag(w, name, id)] + others).Some?
    ensures var t := After(hash, s, [ReadTag(w, name, id)] + others).value;
      Enabled(t, MoveTag(w)) &&
      var asRead := if name in s.repo.refs then name in t.repo.refs && t.repo.refs[name] == s.repo.refs[name] else name !in t.repo.refs;
      Apply(hash, t, MoveTag(w)).repo == if asRead then t.repo.(refs := t.repo.refs[name := id]) else t.repo
  {
    var u := Apply(hash, s, ReadTag(w, name, id));
    StepCloses(hash, s, ReadTag(w, name, id));
    assert ([ReadTag(w, name, id)] + others)[1..] == others;
    OthersKeep(hash, u, others, w);
  }

  // ----- no lost commits -----

  /** The step does not parent a run on another commit than the head it will move. */
  predicate NoFork(s: Sys, a: Step) {
    match a
    case ContinueFrom(_, id, Some(e)) => e == id
    case ContinueFrom(_, id, None) => Head(s.repo) == Some(id)
    case _ => true
  }

  /** Every writer parents its commits on the head it expects. */
  ghost predicate OnHead(s: Sys) {
    forall w | w in s.ctx :: s.ctx[w].loaded ==> s.ctx[w].parent == s.ctx[w].head
  }

  /** HEAD moves only when a writer that expects it where it is moves it, to a commit on the parent
      that writer chose. */
  lemma HeadMoves(hash: Commit -> Id, s: Sys, a: Step)
    requires Inv(hash, s) && Enabled(s, a)
    ensures Head(Apply(hash, s, a).repo) != Head(s.repo) ==>
      && a.MoveHead? && s.ctx[a.w].head == Head(s.repo)
      && Head(Apply(hash, s, a).repo) == Some(s.ctx[a.w].doing.id)
      && s.repo.objects[s.ctx[a.w].doing.id].parent == s.ctx[a.w].parent
  {
    if !a.BeginRun? {
      assert CtxOk(s.repo, s.ctx[a.w]);
    }
  }

  /** A writer whose cached head is stale fails, and moves nothing. */
  lemma StaleWriterFails(hash: Commit -> Id, s: Sys, w: Writer)
    requires Enabled(s, MoveHead(w))
    ensures var t := Apply(hash, s, MoveHead(w));
      if s.ctx[w].head == Head(s.repo)
      then Head(t.repo) == Some(s.ctx[w].doing.id) && t.ctx[w].head == Head(t.repo)
      else t.repo == s.repo && t.ctx[w].head == s.ctx[w].head && t.ctx[w].parent == s.ctx[w].parent
  {}

  /** The old head stays on the line of the new one exactly when the writer's parent descends from
      it: else the run forked, and the commits past its parent left the line. */
  lemma HeadStaysOnLine(hash: Commit -> Id, s: Sys, w: Writer)
    requires Injective(hash) && Inv(hash, s) && Enabled(s, MoveHead(w))
    requires Head(s.repo).Some? && Head(s.repo) == s.ctx[w].head
    requires s.ctx[w].doing.id != Head(s.repo).value
    ensures var t := Apply(hash, s, MoveHead(w));
      && Inv(hash, t)
      && (Head(s.repo).value in LineOf(t.repo, Head(t.repo)) <==> Head(s.repo).value in LineOf(s.repo, s.ctx[w].parent))
  {
    StepCloses(hash, s, MoveHead(w));
    assert CtxOk(s.repo, s.ctx[w]);
    var t := Apply(hash, s, MoveHead(w));
    var p := s.ctx[w].parent;
    if p.Some? {
      forall x | x in s.repo.objects ensures Known(s.repo, s.repo.objects[x].parent) {
        assert Complete(hash, s.repo, x);
      }
      LineStays(s.repo, t.repo, p.value);
    }
  }

  lemma StepOnHead(hash: Commit -> Id, s: Sys, a: Step)
    requires OnHead(s) && Enabled(s, a) && NoFork(s, a)
    ensures OnHead(Apply(hash, s, a))
  {}

  lemma {:induction false} StepKeepsLine(hash: Commit -> Id, s: Sys, a: Step)
    requires Injective(hash) && Inv(hash, s) && OnHead(s) && Enabled(s, a)
    ensures var t := Apply(hash, s, a);
      Inv(hash, t) && IsSuffix(LineOf(s.repo, Head(s.repo)), LineOf(t.repo, Head(t.repo)))
  {
    StepCloses(hash, s, a);
    var t := Apply(hash, s, a);
    forall x | x in s.repo.objects ensures Known(s.repo, s.repo.objects[x].parent) {
      assert Complete(hash, s.repo, x);
    }
    if Head(s.repo).Some? {
      LineStays(s.repo, t.repo, Head(s.repo).value);
    }
    HeadMoves(hash, s, a);
  }

  lemma SuffixTrans(a: seq<Id>, b: seq<Id>, c: seq<Id>)
    requires IsSuffix(a, b) && IsSuffix(b, c)
    ensures IsSuffix(a, c)
  {
    assert c[|c| - |a|..] == c[|c| - |b|..][|b| - |a|..];
  }

  /** The steps, from s, without a fork. */
  predicate NoForks(hash: Commit -> Id, s: Sys, steps: seq<Step>)
    decreases |steps|
  {
    steps != [] ==> Enabled(s, steps[0]) && NoFork(s, steps[0]) && NoForks(hash, Apply(hash, s, steps[0]), steps[1..])
  }

  /** While nobody forks onto another commit than the head, however the writers interleave, every
      commit on HEAD's line stays on it, in the same order. */
  lemma {:induction false} NoLostCommits(hash: Commit -> Id, s: Sys, steps: seq<Step>)
    requires Injective(hash) && Inv(hash, s) && OnHead(s) && After(hash, s, steps).Some? && NoForks(hash, s, steps)
    ensures var t := After(hash, s, steps).value;
      Inv(hash, t) && OnHead(t) && IsSuffix(LineOf(s.repo, Head(s.repo)), LineOf(t.repo, Head(t.repo)))
    decreases |steps|
  {
    if steps != [] {
      var u := Apply(hash, s, steps[0]);
      StepKeepsLine(hash, s, steps[0]);
      StepOnHead(hash, s, steps[0]);
      NoLostCommits(hash, u, steps[1..]);
      var t := After(hash, u, steps[1..]).value;
      SuffixTrans(LineOf(s.repo, Head(s.repo)), LineOf(u.repo, Head(u.repo)), LineOf(t.repo, Head(t.repo)));
    }
  }

  /** A writer that fell behind HEAD: its cached head is an older commit of HEAD's line, or it loaded
      an empty history. */
  ghost predicate Behind(s: Sys, w: Writer)
    requires Ordered(s.repo) && Known(s.repo, Head(s.repo))
  {
    && w in s.ctx && s.ctx[w].loaded && Head(s.repo).Some?
    && Head(s.repo) != s.ctx[w].head
    && (s.ctx[w].head.Some? ==> s.ctx[w].head.value in LineOf(s.repo, Head(s.repo)))
  }

  predicate Rereads(a: Step, w: Writer) { a.w == w && (a.BeginRun? || a.ContinueFrom?) }

  /** Without forks HEAD moves only to a younger commit. */
  lemma HeadRises(hash: Commit -> Id, s: Sys, a: Step)
    requires Injective(hash) && Inv(hash, s) && OnHead(s) && Enabled(s, a) && Head(s.repo).Some?
    ensures var t := Apply(hash, s, a);
      && Known(s.repo, Head(t.repo)) && Head(t.repo).Some?
      && (Head(t.repo) != Head(s.repo) ==> s.repo.age[Head(s.repo).value] < s.repo.age[Head(t.repo).value])
  {
    HeadMoves(hash, s, a);
    if a.MoveHead? {
      assert CtxOk(s.repo, s.ctx[a.w]);
      assert ParentOlder(s.repo, s.ctx[a.w].doing.id);
    }
  }

  lemma InSuffix(s: seq<Id>, t: seq<Id>, id: Id)
    requires IsSuffix(s, t) && id in s
    ensures id in t
  {
    assert t[|t| - |s|..] == s;
  }

  lemma {:induction false} StepStaysBehind(hash: Commit -> Id, s: Sys, a: Step, w: Writer)
    requires Injective(hash) && Inv(hash, s) && OnHead(s) && Behind(s, w)
    requires Enabled(s, a) && !Rereads(a, w)
    ensures Inv(hash, Apply(hash, s, a)) && Behind(Apply(hash, s, a), w)
  {
    var t := Apply(hash, s, a);
    StepKeepsLine(hash, s, a);
    HeadRises(hash, s, a);
    CacheStays(hash, s, a, w);
    if s.ctx[w].head.Some? {
      InSuffix(LineOf(s.repo, Head(s.repo)), LineOf(t.repo, Head(t.repo)), s.ctx[w].head.value);
    }
  }

  lemma CacheStays(hash: Commit -> Id, s: Sys, a: Step, w: Writer)
    requires w in s.ctx && s.ctx[w].loaded && s.ctx[w].head != Head(s.repo)
    requires Enabled(s, a) && !Rereads(a, w)
    ensures var t := Apply(hash, s, a);
      w in t.ctx && t.ctx[w].loaded && t.ctx[w].head == s.ctx[w].head
  {}

  /** A writer behind HEAD stays behind, so every append it tries fails, until it reads HEAD again:
      HEAD never comes back to a commit it left. */
  lemma {:induction false} StaysBehind(hash: Commit -> Id, s: Sys, steps: seq<Step>, w: Writer)
    requires Injective(hash) && Inv(hash, s) && OnHead(s) && Behind(s, w)
    requires After(hash, s, steps).Some? && NoForks(hash, s, steps)
    requires forall a | a in steps :: !Rereads(a, w)
    ensures var t := After(hash, s, steps).value;
      Inv(hash, t) && Behind(t, w)
    decreases |steps|
  {
    if steps != [] {
      StepStaysBehind(hash, s, steps[0], w);
      StepOnHead(hash, s, steps[0]);
      StaysBehind(hash, Apply(hash, s, steps[0]), steps[1..], w);
    }
  }
}
