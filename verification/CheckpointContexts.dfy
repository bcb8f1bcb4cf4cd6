/** A run's checkpoint context over its history's repository, and the checkout a resumed run starts
    with. Each method is proved to be its steps of Commits. */
module CheckpointContexts {
  import opened Wrappers
  import opened Commits

  class Repository {
    const hash: Commit -> Id
    var objects: map<Id, Commit>
    var blobs: set<Blob>
    var refs: map<string, Id>
    ghost var age: map<Id, nat>

    ghost function Model(): Repo
      reads this
    {
      Repo(objects, age, blobs, refs)
    }

    constructor (hash: Commit -> Id)
      ensures this.hash == hash && Model() == EMPTY
    {
      this.hash, objects, blobs, refs, age := hash, map[], {}, map[], map[];
    }

    method Put(c: Commit)
      modifies this
      ensures Model() == PutCommit(hash, old(Model()), c)
    {
      if hash(c) !in objects {
        objects, age := objects[hash(c) := c], age[hash(c) := |objects|];
      }
    }

    method SetRef(name: string, id: Id, expected: Option<Id>) returns (moved: bool)
      modifies this`refs
      ensures moved <==> GetRef(old(Model()), name) == expected
      ensures Model() == Commits.SetRef(old(Model()), name, id, expected)
    {
      moved := (if name in refs then Some(refs[name]) else None) == expected;
      if moved {
        refs := refs[name := id];
      }
    }
  }

  /** The steps of one append. */
  function AppendSteps(w: Writer, c: Ctx, tree: set<Blob>, meta: Meta): seq<Step> {
    (if c.loaded then [] else [LoadHead(w)]) + [Put(w, tree, meta), MoveHead(w)]
  }

  /** The context after its first read of HEAD. */
  function Loaded(r: Repo, c: Ctx): Ctx {
    if c.loaded then c else c.(loaded := true, parent := Head(r), head := Head(r))
  }

  /** What an append from a loaded context leaves. */
  function Appended(hash: Commit -> Id, r: Repo, w: Writer, d: Ctx, tree: set<Blob>, meta: Meta): Sys {
    var commit := Commit(d.parent, tree, meta);
    var id := hash(commit);
    Sys(Commits.SetRef(PutCommit(hash, r, commit), HEAD, id, d.head),
        map[w := if Head(r) == d.head then d.(parent := Some(id), head := Some(id)) else d])
  }

  lemma LoadedAppend(hash: Commit -> Id, r: Repo, w: Writer, d: Ctx, tree: set<Blob>, meta: Meta)
    requires d.doing.Idle? && d.loaded && tree <= d.written
    ensures After(hash, Sys(r, map[w := d]), [Put(w, tree, meta), MoveHead(w)]) == Some(Appended(hash, r, w, d, tree, meta))
  {
    var commit := Commit(d.parent, tree, meta);
    var s1 := Sys(r, map[w := d]);
    var s2 := Apply(hash, s1, Put(w, tree, meta));
    var s3 := Apply(hash, s2, MoveHead(w));
    assert [Put(w, tree, meta), MoveHead(w)][1..] == [MoveHead(w)];
    assert [MoveHead(w)][1..] == [];
    assert After(hash, s2, [MoveHead(w)]) == After(hash, s3, []);
    assert s3.ctx == Appended(hash, r, w, d, tree, meta).ctx;
  }

  /** What an append leaves: the commit is put, and HEAD and the cache move if HEAD is where the
      writer expects it. */
  lemma AppendIsItsSteps(hash: Commit -> Id, r: Repo, w: Writer, c: Ctx, tree: set<Blob>, meta: Meta)
    requires c.doing.Idle? && tree <= c.written
    ensures After(hash, Sys(r, map[w := c]), AppendSteps(w, c, tree, meta)) == Some(Appended(hash, r, w, Loaded(r, c), tree, meta))
  {
    var d := Loaded(r, c);
    LoadedAppend(hash, r, w, d, tree, meta);
    var rest := [Put(w, tree, meta), MoveHead(w)];
    if c.loaded {
      assert AppendSteps(w, c, tree, meta) == rest;
    } else {
      var s := Sys(r, map[w := c]);
      assert Apply(hash, s, LoadHead(w)).ctx == map[w := d];
      assert AppendSteps(w, c, tree, meta)[0] == LoadHead(w);
      assert AppendSteps(w, c, tree, meta)[1..] == rest;
    }
  }

  class CheckpointContext {
    const repo: Repository
    var loaded: bool
    var parent: Option<Id>
    var head: Option<Id>
    var written: set<Blob>

    ghost function Cached(): Ctx
      reads this
    {
      Ctx(loaded, parent, head, written, Idle)
    }

    constructor (repo: Repository)
      ensures this.repo == repo && Cached() == FORGOTTEN
    {
      this.repo, loaded, parent, head, written := repo, false, None, None, {};
    }

    method BeginRun()
      modifies this
      ensures Cached() == FORGOTTEN
    {
      loaded, parent, head, written := false, None, None, {};
    }

    /** Puts each object of a snapshot, except what the run put before. */
    method PutSnapshot(objects: seq<Blob>)
      modifies this`written, repo`blobs
      ensures written == old(written) + set b | b in objects
      ensures repo.blobs == old(repo.blobs) + set b | b in objects && b !in old(written)
    {
      for i := 0 to |objects|
        invariant written == old(written) + set b | b in objects[..i]
        invariant repo.blobs == old(repo.blobs) + set b | b in objects[..i] && b !in old(written)
      {
        assert objects[..i + 1] == objects[..i] + [objects[i]];
        if objects[i] !in written {
          repo.blobs := repo.blobs + {objects[i]};
          written := written + {objects[i]};
        }
      }
      assert objects[..|objects|] == objects;
    }

    method LoadHead()
      modifies this
      ensures Cached() == Loaded(repo.Model(), old(Cached()))
    {
      if !loaded {
        head := if HEAD in repo.refs then Some(repo.refs[HEAD]) else None;
        parent, loaded := head, true;
      }
    }

    /** Puts a commit on the run's parent and moves HEAD to it, or fails and moves nothing; the
        object stays put. */
    method AppendCommit(ghost w: Writer, tree: set<Blob>, meta: Meta) returns (appended: Option<Id>)
      requires tree <= written
      modifies this, repo
      ensures var s := After(repo.hash, Sys(old(repo.Model()), map[w := old(Cached())]), AppendSteps(w, old(Cached()), tree, meta));
        s == Some(Sys(repo.Model(), map[w := Cached()]))
      ensures var expected := Loaded(old(repo.Model()), old(Cached())).head;
        if Head(old(repo.Model())) == expected
        then appended.Some? && repo.refs == old(repo.refs)[HEAD := appended.value] && parent == appended && head == appended
        else appended.None? && repo.refs == old(repo.refs)
      ensures appended.Some? ==> appended.value == repo.hash(Commit(Loaded(old(repo.Model()), old(Cached())).parent, tree, meta))
    {
      AppendIsItsSteps(repo.hash, repo.Model(), w, Cached(), tree, meta);
      LoadHead();
      var commit := Commit(parent, tree, meta);
      repo.Put(commit);
      var moved := repo.SetRef(HEAD, repo.hash(commit), head);
      if moved {
        parent, head := Some(repo.hash(commit)), Some(repo.hash(commit));
        appended := Some(repo.hash(commit));
      } else {
        appended := None;
      }
    }

    /** Parents the run on commit id; HEAD is expected where the caller says, or where it is now. */
    method ContinueFrom(id: Id, expected: Option<Id>)
      modifies this
      ensures loaded && parent == Some(id) && written == old(written)
      ensures expected.Some? ==> head == expected
      ensures expected.None? ==> head == Head(repo.Model())
    {
      parent := Some(id);
      head := if expected.Some? then expected else if HEAD in repo.refs then Some(repo.refs[HEAD]) else None;
      loaded := true;
    }

    /** Reads the tag, then moves it if it still is where it was read; between is where another writer
        put it meanwhile, if one did. */
    method PutTag(name: string, id: Id, between: Option<Id>) returns (moved: bool)
      modifies repo`refs
      ensures moved <==> between.None? || between == GetRef(old(repo.Model()), name)
      ensures repo.refs == old(repo.refs)[name := if moved then id else between.value]
    {
      var at := if name in repo.refs then Some(repo.refs[name]) else None;
      if between.Some? {
        repo.refs := repo.refs[name := between.value];
      }
      moved := repo.SetRef(name, id, at);
    }

    /** The commit a finished run ends with, tagged. A run that finds HEAD moved changes no ref; one whose
        tag another writer moves meanwhile has moved HEAD, and fails on the tag. */
    method CommitCompletion(ghost w: Writer, objects: seq<Blob>, meta: Meta, tag: string, between: Option<Id>)
      returns (appended: Option<Id>, tagged: bool)
      requires tag != HEAD
      modifies this, repo
      ensures appended.Some? <==> Head(old(repo.Model())) == Loaded(old(repo.Model()), old(Cached())).head
      ensures appended.Some? ==>
        appended.value == repo.hash(Commit(Loaded(old(repo.Model()), old(Cached())).parent, (set b | b in objects), meta))
      ensures tagged <==> appended.Some? && (between.None? || between == GetRef(old(repo.Model()), tag))
      ensures repo.refs ==
        if appended.None? then old(repo.refs)
        else old(repo.refs)[HEAD := appended.value][tag := if tagged then appended.value else between.value]
    {
      PutSnapshot(objects);
      appended := AppendCommit(w, (set b | b in objects), meta);
      tagged := false;
      if appended.Some? {
        tagged := PutTag(tag, appended.value, between);
      }
    }
  }

  // ----- checkout -----

  /** What a checkout of the newest commit with state finds: skipped are the commits it walked past.
      Corrupt: the repository does not hold commit id, or not all it is made of. */
  datatype Found =
    | Restored(id: Id, skipped: seq<Id>)
    | Nothing(skipped: seq<Id>)
    | Corrupt(id: Id, skipped: seq<Id>)

  ghost predicate Stateless(r: Repo, ids: seq<Id>) {
    forall id | id in ids :: id in r.objects && r.objects[id].tree == {}
  }

  /** The newest commit of HEAD's line with state, after commits that have none. */
  ghost predicate IsNewest(r: Repo, skipped: seq<Id>, id: Id)
    requires Ordered(r) && Known(r, Head(r))
  {
    && Stateless(r, skipped) && id in r.objects && r.objects[id].tree != {}
    && skipped + [id] <= LineOf(r, Head(r))
  }

  /** Where the walk is: past skipped, at cur. */
  ghost predicate WalkedTo(r: Repo, skipped: seq<Id>, cur: Option<Id>)
    requires Ordered(r) && Known(r, Head(r))
  {
    if Known(r, cur) then LineOf(r, Head(r)) == skipped + LineOf(r, cur) else LineOf(r, Head(r)) == skipped
  }

  lemma OneBack(r: Repo, skipped: seq<Id>, id: Id)
    requires Ordered(r) && Known(r, Head(r)) && id in r.objects && WalkedTo(r, skipped, Some(id))
    ensures WalkedTo(r, skipped + [id], r.objects[id].parent)
    ensures skipped + [id] <= LineOf(r, Head(r))
    ensures var p := r.objects[id].parent; p.Some? && Known(r, p) ==> r.age[p.value] < r.age[id]
  {
    assert ParentOlder(r, id);
    var p := r.objects[id].parent;
    if p.Some? && Known(r, p) {
      assert skipped + ([id] + Line(r, p.value)) == skipped + [id] + Line(r, p.value);
    }
  }

  /** HEAD's line holds a commit with state. */
  ghost predicate Restorable(r: Repo)
    requires Ordered(r) && Known(r, Head(r))
  {
    exists id :: id in LineOf(r, Head(r)) && id in r.objects && r.objects[id].tree != {}
  }

  /** The context a checkout leaves. */
  ghost function CheckedOut(r: Repo, c: Ctx): Ctx
    requires Ordered(r) && Known(r, Head(r))
  {
    if Restorable(r) then c.(loaded := true, parent := Head(r), head := Head(r)) else c
  }

  /** Restores the newest commit that has state, and parents the run on the head it started from: also
      when another writer moves HEAD to between while the history is read. */
  method Checkout(ctx: CheckpointContext, between: Option<Id>) returns (found: Found)
    requires Ordered(ctx.repo.Model())
    modifies ctx, ctx.repo`refs
    ensures ctx.repo.refs == if between.Some? then old(ctx.repo.refs)[HEAD := between.value] else old(ctx.repo.refs)
    ensures Closed(ctx.repo.hash, old(ctx.repo.Model())) ==> !found.Corrupt?
    ensures var r := old(ctx.repo.Model());
      !found.Corrupt? ==> Known(r, Head(r)) && ctx.Cached() == CheckedOut(r, old(ctx.Cached()))
    ensures var r := old(ctx.repo.Model());
      match found
      case Restored(id, skipped) =>
        && Known(r, Head(r)) && IsNewest(r, skipped, id)
        && ctx.loaded && ctx.parent == ctx.head == Head(r) && ctx.written == old(ctx.written)
      case Nothing(skipped) =>
        && Known(r, Head(r)) && Stateless(r, skipped)
        && LineOf(r, Head(r)) == skipped && ctx.Cached() == old(ctx.Cached())
      case Corrupt(id, skipped) =>
        && (id in r.objects ==> !(r.objects[id].tree <= r.blobs)) && Stateless(r, skipped)
        && (if Known(r, Head(r)) then WalkedTo(r, skipped, Some(id)) else Head(r) == Some(id) && skipped == [])
        && ctx.Cached() == old(ctx.Cached())
  {
    ghost var r := ctx.repo.Model();
    var head := if HEAD in ctx.repo.refs then Some(ctx.repo.refs[HEAD]) else None;
    if between.Some? {
      ctx.repo.refs := ctx.repo.refs[HEAD := between.value];
    }
    if head.Some? && head.value !in ctx.repo.objects {
      return Corrupt(head.value, []);
    }
    var cur := head;
    var skipped := [];
    while cur.Some?
      invariant head == Head(r) && Known(r, head) && r.objects == ctx.repo.objects && r.blobs == ctx.repo.blobs
      invariant ctx.repo.refs == if between.Some? then r.refs[HEAD := between.value] else r.refs
      invariant Stateless(r, skipped) && WalkedTo(r, skipped, cur)
      invariant cur.Some? ==> head.Some?
      invariant Closed(ctx.repo.hash, r) ==> Known(r, cur)
      invariant ctx.Cached() == old(ctx.Cached())
      decreases if cur.None? then 0 else if cur.value in r.objects then r.age[cur.value] + 2 else 1
    {
      var id := cur.value;
      if id !in ctx.repo.objects {
        return Corrupt(id, skipped);
      }
      assert Closed(ctx.repo.hash, r) ==> Complete(ctx.repo.hash, r, id);
      var commit := ctx.repo.objects[id];
      if !(commit.tree <= ctx.repo.blobs) {
        return Corrupt(id, skipped);
      }
      OneBack(r, skipped, id);
      if commit.tree != {} {
        assert Restorable(r) by { assert (skipped + [id])[|skipped|] == id; }
        ctx.ContinueFrom(head.value, head);
        return Restored(id, skipped);
      }
      skipped := skipped + [id];
      cur := commit.parent;
    }
    found := Nothing(skipped);
  }

  /** The commit a resume names, by its hash or by a checkpoint's tag. */
  datatype Target = Hash(id: Id) | Checkpoint(tag: string)

  datatype Named = At(id: Id) | Missing | NoState | Damaged

  /** Restores the commit a target names; the run's commits are parented on it, and HEAD moves from
      where it points now: where another writer put it meanwhile, if one did. */
  method CheckoutAt(ctx: CheckpointContext, target: Target, between: Option<Id>) returns (found: Named)
    modifies ctx, ctx.repo`refs
    ensures ctx.repo.refs == if found.At? && between.Some? then old(ctx.repo.refs)[HEAD := between.value] else old(ctx.repo.refs)
    ensures var named := if target.Hash? then Some(target.id) else GetRef(old(ctx.repo.Model()), target.tag);
      match found
      case At(id) =>
        && named == Some(id) && id in ctx.repo.objects && ctx.repo.objects[id].tree != {}
        && ctx.loaded && ctx.parent == named && ctx.head == Head(ctx.repo.Model()) && ctx.written == old(ctx.written)
      case Missing => ctx.Cached() == old(ctx.Cached()) && (named.None? || (target.Hash? && target.id !in ctx.repo.objects))
      case NoState => ctx.Cached() == old(ctx.Cached()) && named.Some? && named.value in ctx.repo.objects && ctx.repo.objects[named.value].tree == {}
      case Damaged =>
        && ctx.Cached() == old(ctx.Cached()) && !Closed(ctx.repo.hash, ctx.repo.Model())
        && named.Some? && (named.value in ctx.repo.objects ==> !(ctx.repo.objects[named.value].tree <= ctx.repo.blobs))
  {
    var id;
    match target {
      case Hash(h) =>
        if h !in ctx.repo.objects { return Missing; }
        id := h;
      case Checkpoint(tag) =>
        if tag !in ctx.repo.refs { return Missing; }
        id := ctx.repo.refs[tag];
        if id !in ctx.repo.objects { return Damaged; }
    }
    var commit := ctx.repo.objects[id];
    if !(commit.tree <= ctx.repo.blobs) {
      assert !Complete(ctx.repo.hash, ctx.repo.Model(), id);
      return Damaged;
    }
    if commit.tree == {} {
      return NoState;
    }
    if between.Some? {
      ctx.repo.refs := ctx.repo.refs[HEAD := between.value];
    }
    ctx.ContinueFrom(id, None);
    found := At(id);
  }

  // ----- a writer between the checkout and the first commit -----

  /** When HEAD moves between a resumed run's checkout and its first commit, that commit fails
      exactly when the checkout restored a state. When no commit of the line had one, the run starts
      over and its commit is appended on top of the other writer's. */
  lemma {:induction false} LateWriterDetected(hash: Commit -> Id, r: Repo, t: Repo, w: Writer, written: set<Blob>, tree: set<Blob>, meta: Meta)
    requires Ordered(r) && Known(r, Head(r))
    requires Injective(hash) && Closed(hash, t) && tree <= written && tree <= t.blobs
    requires Head(t) != Head(r)
    ensures var c := CheckedOut(r, FORGOTTEN).(written := written);
      var s := After(hash, Sys(t, map[w := c]), AppendSteps(w, c, tree, meta));
      && s.Some?
      && (Restorable(r) <==> Head(s.value.repo) == Head(t))
      && (!Restorable(r) ==> s.value.repo == Commits.SetRef(PutCommit(hash, t, Commit(Head(t), tree, meta)), HEAD, hash(Commit(Head(t), tree, meta)), Head(t)))
  {
    var c := CheckedOut(r, FORGOTTEN).(written := written);
    AppendIsItsSteps(hash, t, w, c, tree, meta);
    if !Restorable(r) {
      var commit := Commit(Head(t), tree, meta);
      PutCloses(hash, t, commit);
      assert ParentOlder(PutCommit(hash, t, commit), hash(commit));
    }
  }

  lemma Next(hash: Commit -> Id, s: Sys, a: Step, rest: seq<Step>)
    requires Enabled(s, a)
    ensures After(hash, s, [a] + rest) == After(hash, Apply(hash, s, a), rest)
  {
    assert ([a] + rest)[1..] == rest;
  }

  /** The steps of a run's first append, and of one that stored an object for it before. */
  function FirstAppend(w: Writer, meta: Meta): seq<Step> { [LoadHead(w), Put(w, {}, meta), MoveHead(w)] }

  function NextAppend(w: Writer, blob: Blob, meta: Meta): seq<Step> { [PutBlob(w, blob), Put(w, {blob}, meta), MoveHead(w)] }

  lemma FirstAppends(hash: Commit -> Id, s: Sys, w: Writer, meta: Meta)
    requires w in s.ctx && s.ctx[w] == FORGOTTEN
    ensures var commit := Commit(Head(s.repo), {}, meta);
      var t := After(hash, s, FirstAppend(w, meta));
      && t.Some? && t.value.repo == Commits.SetRef(PutCommit(hash, s.repo, commit), HEAD, hash(commit), Head(s.repo))
      && t.value.ctx == s.ctx[w := FORGOTTEN.(loaded := true, parent := Some(hash(commit)), head := Some(hash(commit)))]
  {
    var s1 := Apply(hash, s, LoadHead(w));
    var s2 := Apply(hash, s1, Put(w, {}, meta));
    Next(hash, s, LoadHead(w), [Put(w, {}, meta), MoveHead(w)]);
    Next(hash, s1, Put(w, {}, meta), [MoveHead(w)]);
    Next(hash, s2, MoveHead(w), []);
    assert [LoadHead(w)] + [Put(w, {}, meta), MoveHead(w)] == FirstAppend(w, meta);
    assert [MoveHead(w)] + [] == [MoveHead(w)];
    assert Head(s2.repo) == Head(s.repo);
  }

  lemma NextAppends(hash: Commit -> Id, s: Sys, w: Writer, blob: Blob, meta: Meta)
    requires w in s.ctx && s.ctx[w].doing.Idle? && s.ctx[w].loaded && s.ctx[w].parent == s.ctx[w].head == Head(s.repo)
    ensures var commit := Commit(Head(s.repo), {blob}, meta);
      var t := After(hash, s, NextAppend(w, blob, meta));
      && t.Some? && Head(t.value.repo) == Some(hash(commit)) && hash(commit) in t.value.repo.objects
      && (hash(commit) !in s.repo.objects ==> t.value.repo.objects[hash(commit)] == commit)
      && forall v | v in s.ctx && v != w :: v in t.value.ctx && t.value.ctx[v] == s.ctx[v]
  {
    var s1 := Apply(hash, s, PutBlob(w, blob));
    var s2 := Apply(hash, s1, Put(w, {blob}, meta));
    Next(hash, s, PutBlob(w, blob), [Put(w, {blob}, meta), MoveHead(w)]);
    Next(hash, s1, Put(w, {blob}, meta), [MoveHead(w)]);
    Next(hash, s2, MoveHead(w), []);
    assert [PutBlob(w, blob)] + [Put(w, {blob}, meta), MoveHead(w)] == NextAppend(w, blob, meta);
    assert [MoveHead(w)] + [] == [MoveHead(w)];
    assert Head(s2.repo) == Head(s.repo);
  }

  /** A history of one commit, without state: nothing in it can be restored. */
  lemma OneStateless(r: Repo, id: Id, meta: Meta)
    requires r.objects == map[id := Commit(None, {}, meta)] && r.age.Keys == {id} && Head(r) == Some(id)
    ensures Ordered(r) && !Restorable(r) && CheckedOut(r, FORGOTTEN) == FORGOTTEN
  {
    assert Line(r, id) == [id];
  }

  /** a begins a run, and so does b, which ends with a commit without state. */
  function Started(a: Writer, b: Writer, meta: Meta): seq<Step> {
    [BeginRun(a), BeginRun(b)] + FirstAppend(b, meta)
  }

  lemma RunsStarted(hash: Commit -> Id, a: Writer, b: Writer, meta: Meta)
    requires a != b
    ensures var start := After(hash, Sys(EMPTY, map[]), Started(a, b, meta));
      var stateless := Commit(None, {}, meta);
      && start.Some? && start.value.repo.objects == map[hash(stateless) := stateless]
      && start.value.repo.age.Keys == {hash(stateless)} && Head(start.value.repo) == Some(hash(stateless))
      && start.value.ctx == map[a := FORGOTTEN, b := FORGOTTEN.(loaded := true, parent := Some(hash(stateless)), head := Some(hash(stateless)))]
  {
    var s0 := Sys(EMPTY, map[]);
    var s1 := Apply(hash, s0, BeginRun(a));
    var s2 := Apply(hash, s1, BeginRun(b));
    assert [BeginRun(a)] + ([BeginRun(b)] + FirstAppend(b, meta)) == Started(a, b, meta);
    Next(hash, s0, BeginRun(a), [BeginRun(b)] + FirstAppend(b, meta));
    Next(hash, s1, BeginRun(b), FirstAppend(b, meta));
    FirstAppends(hash, s2, b, meta);
  }

  /** Such a run: the history holds one commit, without state; a's run checks out and finds nothing; b
      commits a state; a's first commit is appended on top of it, and nothing fails. */
  lemma LateWriterUndetected(hash: Commit -> Id, a: Writer, b: Writer, blob: Blob, before: Meta, theirs: Meta, mine: Meta)
    requires Injective(hash) && a != b
    ensures var start := After(hash, Sys(EMPTY, map[]), Started(a, b, before));
      && start.Some? && Ordered(start.value.repo) && Known(start.value.repo, Head(start.value.repo))
      && a in start.value.ctx && start.value.ctx[a] == CheckedOut(start.value.repo, FORGOTTEN)
      && var between := After(hash, start.value, NextAppend(b, blob, theirs));
      && between.Some? && Head(between.value.repo).Some? && Head(between.value.repo) != Head(start.value.repo)
      && var theirId := Head(between.value.repo).value;
      && theirId in between.value.repo.objects && between.value.repo.objects[theirId].tree != {}
      && var end := After(hash, between.value, FirstAppend(a, mine));
      && end.Some? && Head(end.value.repo) == Some(hash(Commit(Head(between.value.repo), {}, mine)))
  {
    RunsStarted(hash, a, b, before);
    var start := After(hash, Sys(EMPTY, map[]), Started(a, b, before)).value;
    var stateless := Commit(None, {}, before);
    OneStateless(start.repo, hash(stateless), before);
    NextAppends(hash, start, b, blob, theirs);
    var between := After(hash, start, NextAppend(b, blob, theirs)).value;
    assert hash(Commit(Some(hash(stateless)), {blob}, theirs)) != hash(stateless);
    FirstAppends(hash, between, a, mine);
  }
}
