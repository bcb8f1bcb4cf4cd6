/** The runners: the objects that walk a chain or loop an iterate, updating their cursor and the
    run's registry in place. Each is proved to do what Engine specifies. */
module Runners {
  import opened Wrappers
  import opened NodeIds
  import opened FlowModel
  import opened Engine
  import opened MapFacts

  // ----- the registry -----

  /** Nothing is registered at or below q. */
  ghost predicate Vacant(live: Saved, open: map<Path, nat>, q: Path) {
    forall p: Path {:trigger Marked(p)} :: Marked(p) && Under(q, p) ==>
      p !in live.chain && p !in live.iter && p !in live.arm && p !in live.scope && p !in open
  }

  /** As Vacant, but for what the step that runs the chain at path registered at path itself. */
  ghost predicate VacantIn(live: Saved, open: map<Path, nat>, path: Path) {
    && path !in live.chain
    && forall p: Path {:trigger Marked(p)} :: Marked(p) && Under(path, p) && p != path ==>
      p !in live.chain && p !in live.iter && p !in live.arm && p !in live.scope && p !in open
  }

  /** Below the chain at path nothing but what its step registered at its own path is in the way. */
  lemma VacantBelow(live: Saved, open: map<Path, nat>, path: Path, q: Path)
    requires forall p: Path {:trigger Marked(p)} :: Marked(p) && Under(path, p) && p != path ==>
      p !in live.chain && p !in live.iter && p !in live.arm && p !in live.scope && p !in open
    requires Under(path, q) && q != path
    ensures Vacant(live, open, q)
  {
    forall p: Path | Under(q, p) ensures Under(path, p) && p != path {
      UnderTransitive(path, q, p);
    }
  }

  /** The entries that are neither at q nor below it. */
  function Outside<T>(m: map<Path, T>, q: Path): (r: map<Path, T>)
    ensures (forall p | p in m :: !Under(q, p)) ==> r == m
  {
    map p | p in m && !Under(q, p) :: m[p]
  }

  /** Of the entries those whose path begins with q go, q's own among them, and no other; the ones that
      stay are as they were. */
  lemma OutsideDropsBelow<T>(m: map<Path, T>, q: Path, p: Path)
    ensures p in Outside(m, q) <==> p in m && !(q <= p)
    ensures p in Outside(m, q) ==> Outside(m, q)[p] == m[p]
  {
    assert q <= p <==> |q| <= |p| && p[..|q|] == q;
  }

  /** The payloads of the registered scopes, as they are now. */
  function Payloads(open: map<Path, nat>, scopes: seq<Value>): map<Path, Value> {
    map p | p in open && open[p] < |scopes| :: scopes[open[p]]
  }

  function Captured(saved: Saved, live: Saved, open: map<Path, nat>, scopes: seq<Value>): Saved {
    var all := saved.With(live);
    all.(scope := all.scope + Payloads(open, scopes))
  }

  /** A snapshot does not tell the scope of a running block from the one it leaves when it stops. */
  lemma {:induction false} KeptScopeIsCaptured(saved: Saved, live: Saved, open: map<Path, nat>, scopes: seq<Value>, q: Path)
    requires q in open && open[q] + 1 == |scopes|
    requires forall p | p in open && p != q :: open[p] + 1 < |scopes|
    ensures Captured(saved, live.(scope := live.scope[q := scopes[open[q]]]), open - {q}, scopes[..|scopes| - 1])
         == Captured(saved, live, open, scopes)
  {
    PayloadsWithout(open, scopes, q);
    KeptEntry(saved.scope, live.scope, Payloads(open, scopes), q);
  }

  lemma PayloadsWithout(open: map<Path, nat>, scopes: seq<Value>, q: Path)
    requires q in open && open[q] + 1 == |scopes|
    requires forall p | p in open && p != q :: open[p] + 1 < |scopes|
    ensures Payloads(open - {q}, scopes[..|scopes| - 1]) == Payloads(open, scopes) - {q}
    ensures q in Payloads(open, scopes) && Payloads(open, scopes)[q] == scopes[open[q]]
  {
  }

  lemma KeptEntry<K, V>(saved: map<K, V>, live: map<K, V>, now: map<K, V>, q: K)
    requires q in now
    ensures (saved + live[q := now[q]]) + (now - {q}) == (saved + live) + now
  {
  }

  /** What a run is made of: the entries a checkout saved and nothing took; the cursors registered
      now and the scopes of blocks that stopped; the depth of each scope a running block opened; the
      world and the halt. */
  class RunState {
    var saved: Saved
    var live: Saved
    var open: map<Path, nat>
    var world: World
    var halt: Halt
    /** What a checkpoint holds that the running verb takes, the last one called: every verb call
        sets it before it looks at the halt. */
    ghost var inVerb: Option<Saved>

    constructor (c: Cfg)
      ensures Config() == c && live == NOTHING && open == map[]
    {
      saved, live, open, world, halt, inVerb := c.s, NOTHING, map[], c.w, c.h, None;
    }

    ghost function Config(): Cfg
      reads this
    {
      Cfg(saved, world, halt)
    }

    ghost predicate Valid()
      reads this
    {
      forall p | p in open :: open[p] < |world.scopes|
    }

    /** Every saved entry nothing took, and over it every live cursor and scope, at this moment. */
    function Capture(): Saved
      reads this
    {
      Captured(saved, live, open, world.scopes)
    }

    method TakeChain(path: Path) returns (r: Option<ChainCursor>)
      modifies this`saved
      ensures r == if path in old(saved).chain then Some(old(saved).chain[path]) else None
      ensures saved == old(saved).(chain := old(saved).chain - {path})
    {
      r := if path in saved.chain then Some(saved.chain[path]) else None;
      saved := saved.(chain := saved.chain - {path});
    }

    method TakeIter(path: Path) returns (r: Option<IterCursor>)
      modifies this`saved
      ensures r == if path in old(saved).iter then Some(old(saved).iter[path]) else None
      ensures saved == old(saved).(iter := old(saved).iter - {path})
    {
      r := if path in saved.iter then Some(saved.iter[path]) else None;
      saved := saved.(iter := saved.iter - {path});
    }

    method TakeArm(path: Path) returns (r: Option<bool>)
      modifies this`saved
      ensures r == if path in old(saved).arm then Some(old(saved).arm[path]) else None
      ensures saved == old(saved).(arm := old(saved).arm - {path})
    {
      r := if path in saved.arm then Some(saved.arm[path]) else None;
      saved := saved.(arm := saved.arm - {path});
    }

    method TakeScope(path: Path) returns (r: Option<Value>)
      modifies this`saved
      ensures r == if path in old(saved).scope then Some(old(saved).scope[path]) else None
      ensures saved == old(saved).(scope := old(saved).scope - {path})
    {
      r := if path in saved.scope then Some(saved.scope[path]) else None;
      saved := saved.(scope := saved.scope - {path});
    }

    /** Drop everything registered at q or below it. */
    method CloseUnder(q: Path)
      modifies this`live, this`open
      ensures live == Saved(Outside(old(live).chain, q), Outside(old(live).iter, q), Outside(old(live).arm, q), Outside(old(live).scope, q))
      ensures open == Outside(old(open), q)
      ensures Vacant(old(live), old(open), q) ==> live == old(live) && open == old(open)
    {
      if Vacant(live, open, q) {
        forall p: Path | Under(q, p)
          ensures p !in live.chain && p !in live.iter && p !in live.arm && p !in live.scope && p !in open
        {
          assert Marked(p);
        }
      }
      live := Saved(Outside(live.chain, q), Outside(live.iter, q), Outside(live.arm, q), Outside(live.scope, q));
      open := Outside(open, q);
    }

    method Call(e: Env, callee: Callee, input: Inputs) returns (v: Value)
      modifies this`world, this`halt
      ensures (v, Config()) == CallUser(e, callee, input, old(Config()))
    {
      var (x, w) := Invoke(e.u, callee, input, world);
      v, world, halt := x, w, halt.Tick();
    }

    /** Enter a block at q; a scope of its own is registered there. */
    method EnterScope(e: Env, scope: Option<Scope>, q: Path)
      modifies this`saved, this`open, this`world, this`halt
      requires Valid()
      ensures Valid()
      ensures Config() == Enter(e, scope, q, old(Config()))
      ensures open == if scope.Some? then old(open)[q := |old(world).scopes|] else old(open)
    {
      if scope.Some? {
        var parent := world.scopes;
        var found := TakeScope(q);
        var payload;
        if found.Some? {
          payload := found.value;
        } else {
          payload := Call(e, OpenScope(scope.value.projection), One(Current(e.u, parent)));
        }
        open := open[q := |world.scopes|];
        world := world.(scopes := world.scopes + [payload]);
      }
    }

    /** Leave a block that completed: merge its scope and drop it. */
    method LeaveScope(e: Env, scope: Option<Scope>, q: Path)
      modifies this`open, this`world, this`halt
      requires scope.Some? ==> |world.scopes| > 0
      ensures Config() == Leave(e, scope, old(Config()))
      ensures open == if scope.Some? then old(open) - {q} else old(open)
    {
      if scope.Some? {
        if scope.value.merge.Some? {
          var child, parent := Current(e.u, world.scopes), Current(e.u, Parents(world.scopes));
          var _ := Call(e, Merge(scope.value.merge.value), Inputs([parent, child], map[]));
        }
        open := open - {q};
        world := world.(scopes := Parents(world.scopes));
      }
    }

    /** Leave a block that stopped early: its scope stays registered at q. */
    method KeepScope(e: Env, scope: Option<Scope>, q: Path)
      modifies this`live, this`open, this`world
      requires Valid()
      requires scope.Some? ==> q in open && open[q] == |world.scopes| - 1
      requires scope.Some? ==> forall p | p in open && p != q :: open[p] < |world.scopes| - 1
      ensures world == if scope.Some? then old(world).(scopes := Parents(old(world).scopes)) else old(world)
      ensures live == if scope.Some? then old(live).(scope := old(live).scope[q := Current(e.u, old(world).scopes)]) else old(live)
      ensures open == if scope.Some? then old(open) - {q} else old(open)
      ensures Capture() == old(Capture())
    {
      if scope.Some? {
        KeptScopeIsCaptured(saved, live, open, world.scopes, q);
        live := live.(scope := live.scope[q := Current(e.u, world.scopes)]);
        open := open - {q};
        world := world.(scopes := Parents(world.scopes));
      }
    }
  }

  // ----- running -----

  /** How a runner leaves the run: as the specification's result r says. A structure that completed
      leaves nothing registered. One the halt stopped leaves its cursors and scopes (left)
      registered, and these over the entries nothing took are what r holds; when a verb stopped it,
      a checkpoint now is the one that verb could have taken while it ran. */
  ghost predicate Ends(run: RunState, out: Outcome, r: Res, before: Saved, open: map<Path, nat>, left: Saved)
    reads run
  {
    && out == r.out
    && run.world == r.c.w
    && run.halt == r.c.h
    && run.open == open
    && (out.Done? ==> run.live == before && run.saved == r.c.s)
    && (out.Halted? ==>
          && run.live == before.With(left)
          && run.saved.With(left) == r.c.s
          && (out.inVerb ==> run.inVerb == Some(run.Capture())))
  }

  lemma NothingLeft(s: Saved)
    ensures s.With(NOTHING) == s
  {
    UnionEmpty(s.chain);
    UnionEmpty(s.iter);
    UnionEmpty(s.arm);
    UnionEmpty(s.scope);
  }

  method RunAsSubflow(f: Flow, e: Env, context: Context, path: Path, regions: seq<Region>, input: Inputs, run: RunState)
    returns (out: Outcome, ghost left: Saved)
    requires run.Valid() && VacantIn(run.live, run.open, path)
    modifies run
    ensures Ends(run, out, Engine.RunFlow(f, e, context, path, regions, input, old(run.Config())), old(run.live), old(run.open), left)
    decreases f, |f.nodes| + 1, 0
  {
    left := NOTHING;
    if |f.nodes| == 0 {
      return Failed(EmptyFlow), NOTHING;
    }
    var chain := new Chain(f, Frame(e, context, path, regions + RegionOf(f), input));
    out, left := chain.WalkAll(regions, run);
  }

  ghost function WithChain(s: Saved, path: Path, cursor: ChainCursor): Saved {
    s.(chain := s.chain[path := cursor])
  }

  /** One flow's chain at one walk level. */
  class Chain {
    const f: Flow
    const k: Frame
    const ids: seq<NodeId>

    // The cursor: the step the chain is at and that step's input. pending: the chain stopped past a
    // completed step, before this one started; prev is that completed step's result.
    var index: Option<nat>
    var inputs: Inputs
    var pending: bool
    var prev: Value
    var deferred: bool

    constructor (f: Flow, k: Frame)
      ensures this.f == f && this.k == k && Valid() && index == None
    {
      this.f, this.k, ids := f, k, Ids(k.context, Keys(f));
      index, inputs, pending, prev, deferred := None, Inputs([], map[]), false, k.e.u.none, false;
    }

    ghost predicate Valid()
      reads this
    {
      && ids == Ids(k.context, Keys(f))
      && (index.Some? ==> index.value < |f.nodes|)
    }

    /** The step this chain is at and that step's input; nothing before its first step. */
    function Cursor(): Option<ChainCursor>
      requires Valid()
      reads this
    {
      match index
      case None => None
      case Some(i) =>
        Some(if pending then Pending(ids[i], inputs, prev, deferred) else Running(ids[i], inputs))
    }

    /** The registry is as it was (live0) but for this chain's cursor. */
    ghost predicate Registered(run: RunState, live0: Saved)
      requires Valid()
      reads this, run
    {
      run.live == match Cursor() case None => live0 case Some(c) => WithChain(live0, k.path, c)
    }

    /** Keep the cursor in every snapshot taken from now on. */
    method Register(ghost live0: Saved, ghost was: Option<ChainCursor>, run: RunState)
      requires Valid() && index.Some?
      requires run.live == match was case None => live0 case Some(c) => WithChain(live0, k.path, c)
      modifies run`live
      ensures Registered(run, live0)
    {
      if was.Some? {
        UpdateTwice(live0.chain, k.path, was.value, Cursor().value);
      }
      run.live := run.live.(chain := run.live.chain[k.path := Cursor().value]);
    }

    /** The input of step i after prev, through its project= when it has one. */
    method InputOf(run: RunState, i: nat, prev: Value) returns (input: Inputs)
      requires i < |f.nodes|
      modifies run`world
      ensures (input, run.Config()) == StepInputs(k.e, i, f.nodes[i], prev, k.input, old(run.Config()))
    {
      if i == 0 {
        return k.input;
      }
      match f.nodes[i].project
      case None => input := One(prev);
      case Some(p) =>
        run.world := run.world.(log := run.world.log + [Event(Project(p), One(prev))]);
        input := One(k.e.u.project(p, prev));
    }

    /** Walk the chain from its first step, or from where a checkout saved it. */
    method WalkAll(ghost regions: seq<Region>, run: RunState) returns (out: Outcome, ghost left: Saved)
      requires Valid() && index == None && f.nodes != []
      requires run.Valid() && VacantIn(run.live, run.open, k.path)
      requires k.regions == regions + RegionOf(f)
      modifies this, run
      ensures Ends(run, out, Engine.RunFlow(f, k.e, k.context, k.path, regions, k.input, old(run.Config())), old(run.live), old(run.open), left)
      decreases f, |f.nodes|, 3
    {
      if k.path !in run.saved.chain {
        RemoveAbsent(run.saved.chain, k.path);
      }
      var saved := run.TakeChain(k.path);
      if saved.None? {
        out, left := WalkSteps(None, 0, run);
      } else if saved.value.step !in ids {
        out, left := Failed(LostStep(k.path)), NOTHING;
      } else {
        var start := IndexOf(ids, saved.value.step);
        out, left := WalkSteps(saved, start, run);
      }
    }

    /** Execute the steps from the first (or the saved) one onward, threading returns. */
    method WalkSteps(saved: Option<ChainCursor>, start: nat, run: RunState) returns (out: Outcome, ghost left: Saved)
      requires Valid() && index == None && start <= |f.nodes|
      requires run.Valid() && VacantIn(run.live, run.open, k.path)
      requires k.path !in run.saved.chain
      modifies this, run
      ensures Ends(run, out, Walk(f, k, Where(saved, start, start), start, After(saved), old(run.Config())), old(run.live), old(run.open), left)
      decreases f, |f.nodes|, 2
    {
      ghost var whole := Walk(f, k, Where(saved, start, start), start, After(saved), run.Config());
      ghost var live0, open0 := run.live, run.open;
      left := NOTHING;
      var i, last := start, After(saved);
      while i < |f.nodes|
        invariant start <= i <= |f.nodes| && Valid()
        invariant run.Valid() && run.open == open0
        invariant Registered(run, live0)
        invariant k.path !in run.saved.chain
        invariant whole == Walk(f, k, Where(saved, start, i), i, last, run.Config())
      {
        var at := Where(saved, start, i);
        if !Rerun(at) && !f.nodes[i].conclude && FastForward(k.regions, run.world.signals) {
          i := i + 1;
          continue;
        }
        var input := InputFor(run, at, i, last);
        out, left := Step(live0, run, i, input);
        if !out.Done? {
          return;
        }
        last, i := Some(out.value), i + 1;
      }
      Close(live0, run);
      out := Done(PassedThrough(k.e.u, last, k.input));
    }

    /** The saved cursor, at the step it is for. */
    function Where(saved: Option<ChainCursor>, start: nat, i: nat): Option<At> {
      if saved.Some? && i == start then Some(At(i, saved.value)) else None
    }

    /** The completed result a saved pending step follows. */
    function After(saved: Option<ChainCursor>): Option<Value> {
      if saved.Some? && saved.value.Pending? then Some(saved.value.prev) else None
    }

    /** The input step i gets where the walk is. */
    method InputFor(run: RunState, at: Option<At>, i: nat, last: Option<Value>) returns (input: Inputs)
      requires i < |f.nodes|
      modifies run`world
      ensures (input, run.Config()) == InputsAt(k, at, i, f.nodes[i], last, old(run.Config()))
    {
      if at.None? {
        input := InputOf(run, i, PassedThrough(k.e.u, last, k.input));
      } else if at.value.cursor.Pending? && at.value.cursor.deferred && !FastForward(k.regions, run.world.signals) {
        input := InputOf(run, i, at.value.cursor.prev);
      } else {
        input := at.value.cursor.inputs;
      }
    }

    /** The chain completed: its cursor leaves the snapshots. */
    method Close(ghost live0: Saved, run: RunState)
      requires Valid() && Registered(run, live0) && k.path !in live0.chain
      modifies run`live
      ensures run.live == live0
    {
      if Cursor().Some? {
        RemoveUpdated(live0.chain, k.path, Cursor().value);
      } else {
        RemoveAbsent(live0.chain, k.path);
      }
      run.live := run.live.(chain := run.live.chain - {k.path});
    }

    /** The chain goes on after a step, or its walk ended as r says. */
    ghost predicate Stepped(run: RunState, out: Outcome, whole: Res, i: nat, live0: Saved, open: map<Path, nat>, left: Saved)
      requires i < |f.nodes|
      reads this, run
    {
      && Valid()
      && if out.Done? then
           && whole == Walk(f, k, None, i + 1, Some(out.value), run.Config())
           && Registered(run, live0)
           && k.path !in run.saved.chain
           && run.Valid() && run.open == open
         else Ends(run, out, whole, live0, open, left)
    }

    /** Run step i; its result, unless the halt stops the chain at or after it. */
    method Step(ghost live0: Saved, run: RunState, i: nat, input: Inputs) returns (out: Outcome, ghost left: Saved)
      requires Valid() && i < |f.nodes|
      requires run.Valid() && VacantIn(live0, run.open, k.path)
      requires Registered(run, live0)
      requires k.path !in run.saved.chain
      modifies this, run
      ensures Stepped(run, out, WalkStep(f, k, i, input, old(run.Config())), i, live0, old(run.open), left)
      decreases f, |f.nodes| - i - 1, 1
    {
      var id := ids[i];
      assert id == IdAt(k.context, Keys(f), i);
      Begin(live0, run, i, input);
      ghost var c := run.Config();
      VacantBelow(run.live, run.open, k.path, OwnerPath(k, id));
      out, left := ExecuteNode(f.nodes[i], id, k, input, run);
      ghost var r := Engine.RunNode(f.nodes[i], id, k, input, c);
      NodeFits(k, id, c, r);
      out, left := AfterStep(live0, run, i, input, out, r, left);
    }

    /** Move the cursor to step i, about to run with input. */
    method Begin(ghost live0: Saved, run: RunState, i: nat, input: Inputs)
      requires Valid() && i < |f.nodes| && Registered(run, live0)
      modifies this, run`live
      ensures Valid() && index == Some(i) && Cursor() == Some(Running(ids[i], input))
      ensures run.live == WithChain(live0, k.path, Running(ids[i], input))
    {
      ghost var was := Cursor();
      index, inputs, pending := Some(i), input, false;
      Register(live0, was, run);
    }

    /** Observe the halt after step i, and stop there or go on past it. */
    method AfterStep(ghost live0: Saved, run: RunState, i: nat, input: Inputs, result: Outcome, ghost r: Res, ghost under: Saved)
      returns (out: Outcome, ghost left: Saved)
      requires Valid() && i < |f.nodes| && index == Some(i) && Cursor() == Some(Running(ids[i], input))
      requires Ends(run, result, r, WithChain(live0, k.path, Running(ids[i], input)), run.open, under)
      requires run.Valid() && VacantIn(live0, run.open, k.path)
      requires k.path !in r.c.s.chain
      modifies this, run
      ensures Stepped(run, out, Engine.AfterStep(f, k, i, input, r), i, live0, old(run.open), left)
    {
      out, left := result, under;
      match result
      case Failed(_) =>
      case Diverged =>
      case Halted(_) =>
        CursorLeft(live0, under, k.path, Running(ids[i], input), run.saved);
        left := WithChain(under, k.path, Running(ids[i], input));
      case Done(v) => out, left := Completed(live0, run, i, v);
    }

    /** Step i completed: stop past it when the halt is set and it is not the last, else go on. */
    method Completed(ghost live0: Saved, run: RunState, i: nat, v: Value) returns (out: Outcome, ghost left: Saved)
      requires Valid() && i < |f.nodes| && index == Some(i) && Registered(run, live0)
      requires run.Valid() && VacantIn(live0, run.open, k.path)
      requires k.path !in run.saved.chain
      modifies this, run
      ensures Stepped(run, out, Engine.AfterStep(f, k, i, old(inputs), Res(Done(v), old(run.Config()))), i, live0, old(run.open), left)
    {
      if run.halt.Signaled() && i + 1 < |f.nodes| {
        left := MoveTo(live0, run, i + 1, v);
        out := Halted(false);
      } else {
        VacantBelow(run.live, run.open, k.path, OwnerPath(k, ids[i]));
        run.CloseUnder(OwnerPath(k, ids[i]));
        out, left := Done(v), NOTHING;
      }
    }

    /** Move the cursor past a completed step, to step i, which has not started. */
    method MoveTo(ghost live0: Saved, run: RunState, i: nat, result: Value) returns (ghost left: Saved)
      requires Valid() && i < |f.nodes|
      requires Registered(run, live0)
      modifies this, run`live, run`world
      ensures Valid()
      ensures Ends(run, Halted(false), Engine.MoveTo(f, k, i, result, old(run.Config())), live0, old(run.open), left)
      ensures run.saved == old(run.saved)
    {
      ghost var was := Cursor();
      var skip := !f.nodes[i].conclude && FastForward(k.regions, run.world.signals);
      index, pending, prev, deferred := Some(i), true, result, skip;
      if skip {
        inputs := One(result);
      } else {
        inputs := InputOf(run, i, result);
      }
      left := StopHere(live0, was, run);
    }

    /** Leave this chain's cursor, and nothing under it, registered. */
    method StopHere(ghost live0: Saved, ghost was: Option<ChainCursor>, run: RunState) returns (ghost left: Saved)
      requires Valid() && index.Some?
      requires run.live == match was case None => live0 case Some(c) => WithChain(live0, k.path, c)
      modifies run`live
      ensures run.live == live0.With(left)
      ensures run.saved.With(left) == WithChain(run.saved, k.path, Cursor().value)
    {
      Register(live0, was, run);
      left := CursorAlone(live0, run.saved, k.path, Cursor().value);
    }
  }

  ghost function WithScope(s: Saved, q: Path, payload: Value): Saved {
    s.(scope := s.scope[q := payload])
  }

  ghost function WithArm(s: Saved, q: Path, arm: bool): Saved {
    s.(arm := s.arm[q := arm])
  }

  ghost function WithIter(s: Saved, q: Path, cursor: IterCursor): Saved {
    s.(iter := s.iter[q := cursor])
  }

  /** A stopped block's scope joins what was left under it. */
  lemma ScopeLeft(s: Saved, left: Saved, q: Path, payload: Value)
    ensures s.With(WithScope(left, q, payload)) == WithScope(s.With(left), q, payload)
  {
    UnionUpdated(s.scope, left.scope, q, payload);
  }

  lemma ArmLeft(s: Saved, left: Saved, q: Path, arm: bool)
    requires q !in left.arm
    ensures s.With(WithArm(left, q, arm)) == WithArm(s.With(left), q, arm) == WithArm(s, q, arm).With(left)
  {
    UnionUpdated(s.arm, left.arm, q, arm);
  }

  lemma IterLeft(s: Saved, left: Saved, q: Path, cursor: IterCursor)
    requires q !in left.iter
    ensures s.With(WithIter(left, q, cursor)) == WithIter(s.With(left), q, cursor) == WithIter(s, q, cursor).With(left)
  {
    UnionUpdated(s.iter, left.iter, q, cursor);
  }

  lemma CursorAlone(live0: Saved, saved: Saved, path: Path, cursor: ChainCursor) returns (left: Saved)
    ensures WithChain(live0, path, cursor) == live0.With(left)
    ensures saved.With(left) == WithChain(saved, path, cursor)
  {
    left := WithChain(NOTHING, path, cursor);
    NothingLeft(saved);
    NothingLeft(live0);
    CursorLeft(live0, NOTHING, path, cursor, saved);
  }

  /** A stopped step's cursor joins what was left under it. */
  lemma {:induction false} CursorLeft(live0: Saved, left: Saved, path: Path, cursor: ChainCursor, saved: Saved)
    requires path !in left.chain
    ensures WithChain(live0, path, cursor).With(left) == live0.With(WithChain(left, path, cursor))
    ensures saved.With(WithChain(left, path, cursor)) == WithChain(saved.With(left), path, cursor)
  {
    UnionUpdated(live0.chain, left.chain, path, cursor);
    UnionUpdated(saved.chain, left.chain, path, cursor);
  }

  method ExecuteNode(n: Node, id: NodeId, k: Frame, inputs: Inputs, run: RunState) returns (out: Outcome, ghost left: Saved)
    requires run.Valid() && Vacant(run.live, run.open, OwnerPath(k, id))
    modifies run
    ensures Ends(run, out, Engine.RunNode(n, id, k, inputs, old(run.Config())), old(run.live), old(run.open), left)
    decreases n, 0, 0
  {
    match n.target
    case Step(verb) => out, left := CallVerb(k.e, verb, inputs, run);
    case Call(body, scope) => out, left := RunSubflow(body, scope, id, k, inputs, run);
    case Branch(_, _, _) => out, left := TakeBranch(n.target, id, k, First(k.e.u, inputs), run);
    case Iterate(_, _, _, _) =>
      var it := new IterateRunner(n.target, k, id, First(k.e.u, inputs));
      out, left := it.Run(run);
  }

  method CallVerb(e: Env, verb: nat, inputs: Inputs, run: RunState) returns (out: Outcome, ghost left: Saved)
    requires run.Valid()
    modifies run
    ensures Ends(run, out, Engine.RunVerb(e, verb, inputs, old(run.Config())), old(run.live), old(run.open), left)
  {
    left := NOTHING;
    NothingLeft(run.saved);
    NothingLeft(run.live);
    run.inVerb := Some(run.Capture());
    if run.halt.Tick().Signaled() && run.halt.raises {
      run.halt := run.halt.Tick();
      out := Halted(true);
    } else {
      var v := run.Call(e, Verb(verb), inputs);
      out := Done(v);
    }
  }

  method RunSubflow(body: Flow, scope: Option<Scope>, id: NodeId, k: Frame, inputs: Inputs, run: RunState)
    returns (out: Outcome, ghost left: Saved)
    requires run.Valid() && Vacant(run.live, run.open, OwnerPath(k, id))
    modifies run
    ensures Ends(run, out, Engine.RunCall(body, scope, id, k, inputs, old(run.Config())), old(run.live), old(run.open), left)
    decreases body, |body.nodes| + 2, 0
  {
    var q := OwnerPath(k, id);
    assert Marked(q);
    ghost var before, open0 := run.live, run.open;
    run.EnterScope(k.e, scope, q);
    ghost var r := Engine.RunFlow(body, k.e, Descend(id, "call"), q, k.regions, inputs, run.Config());
    out, left := RunAsSubflow(body, k.e, Descend(id, "call"), q, k.regions, inputs, run);
    left := EndBlock(k.e, scope, q, before, open0, out, r, left, run);
  }

  /** A block ended: merge its scope and drop it, or leave it where the block stopped. */
  method EndBlock(e: Env, scope: Option<Scope>, q: Path, ghost before: Saved, ghost open0: map<Path, nat>, out: Outcome, ghost r: Res, ghost under: Saved, run: RunState)
    returns (ghost left: Saved)
    requires scope.Some? ==> |run.world.scopes| > 0 && q !in open0
    requires forall p | p in open0 :: open0[p] < |run.world.scopes| - if scope.Some? then 1 else 0
    requires Ends(run, out, r, before, if scope.Some? then open0[q := |run.world.scopes| - 1] else open0, under)
    modifies run
    ensures Ends(run, out, AfterCall(e, scope, q, r), before, open0, left)
  {
    left := under;
    if out.Done? {
      if scope.Some? {
        RemoveUpdated(open0, q, |run.world.scopes| - 1);
      }
      run.LeaveScope(e, scope, q);
    } else {
      left := Suspended(e, scope, q, before, open0, under, run);
    }
  }

  /** Leave a block that stopped early, with what it left. */
  method Suspended(e: Env, scope: Option<Scope>, q: Path, ghost before: Saved, ghost open0: map<Path, nat>, ghost left: Saved, run: RunState)
    returns (ghost all: Saved)
    requires scope.Some? ==> |run.world.scopes| > 0 && q !in open0
    requires forall p | p in open0 :: open0[p] < |run.world.scopes| - if scope.Some? then 1 else 0
    requires run.open == if scope.Some? then open0[q := |run.world.scopes| - 1] else open0
    modifies run`live, run`open, run`world
    ensures all == if scope.Some? then WithScope(left, q, Current(e.u, old(run.world).scopes)) else left
    ensures run.live == if scope.Some? then WithScope(old(run.live), q, Current(e.u, old(run.world).scopes)) else old(run.live)
    ensures run.world == if scope.Some? then old(run.world).(scopes := Parents(old(run.world).scopes)) else old(run.world)
    ensures run.open == open0
    ensures run.Capture() == old(run.Capture())
    ensures old(run.live) == before.With(left) ==> run.live == before.With(all)
    ensures run.saved.With(all) == if scope.Some? then WithScope(run.saved.With(left), q, Current(e.u, old(run.world).scopes)) else run.saved.With(left)
  {
    all := left;
    if scope.Some? {
      all := WithScope(left, q, Current(e.u, run.world.scopes));
      ScopeLeft(before, left, q, Current(e.u, run.world.scopes));
      ScopeLeft(run.saved, left, q, Current(e.u, run.world.scopes));
      RemoveUpdated(open0, q, |run.world.scopes| - 1);
    }
    run.KeepScope(e, scope, q);
  }

  method TakeBranch(t: Target, id: NodeId, k: Frame, v: Value, run: RunState) returns (out: Outcome, ghost left: Saved)
    requires t.Branch?
    requires run.Valid() && Vacant(run.live, run.open, OwnerPath(k, id))
    modifies run
    ensures Ends(run, out, Engine.RunBranch(t, id, k, v, old(run.Config())), old(run.live), old(run.open), left)
    decreases t, 0, 0
  {
    var q := OwnerPath(k, id);
    assert Marked(q);
    left := NOTHING;
    var verdict := TakeVerdict(k.e, t.when, q, v, run);
    if !verdict && t.elseFlow.None? {
      return Done(v), NOTHING;
    }
    ghost var before := run.live;
    run.live := run.live.(arm := run.live.arm[q := verdict]);
    if verdict {
      out, left := RunAsSubflow(t.thenFlow, k.e, Descend(id, "then"), q, k.regions, One(v), run);
    } else {
      out, left := RunAsSubflow(t.elseFlow.value, k.e, Descend(id, "else"), q, k.regions, One(v), run);
    }
    if out.Done? {
      RemoveUpdated(before.arm, q, verdict);
      run.live := run.live.(arm := run.live.arm - {q});
    } else if out.Halted? {
      assert q !in run.saved.With(left).arm;
      ArmLeft(before, left, q, verdict);
      ArmLeft(run.saved, left, q, verdict);
      left := WithArm(left, q, verdict);
    }
  }

  /** The arm a checkout saved at this branch, else when's verdict. */
  method TakeVerdict(e: Env, when: nat, q: Path, v: Value, run: RunState) returns (verdict: bool)
    modifies run`saved, run`world, run`halt
    ensures (verdict, run.Config()) == Verdict(e, when, q, v, old(run.Config()))
  {
    var arm := run.TakeArm(q);
    if arm.Some? {
      verdict := arm.value;
    } else {
      var x := run.Call(e, When(when), One(v));
      verdict := e.u.truthy(x);
    }
  }

  /** Drives one iterate: its body under the bounds, the halt and until. */
  class IterateRunner {
    const t: Target
    const k: Frame
    const id: NodeId

    // The cursor: the pass the loop is in, the value carried into it, and until's verdict on that
    // value (None: not checked yet). The run's input is never checked.
    var iteration: nat
    var carry: Value
    var done: Option<bool>

    constructor (t: Target, k: Frame, id: NodeId, input: Value)
      requires t.Iterate?
      ensures this.t == t && this.k == k && this.id == id
      ensures Cursor() == IterCursor(0, input, Some(false))
    {
      this.t, this.k, this.id := t, k, id;
      iteration, carry, done := 0, input, Some(false);
    }

    function Cursor(): IterCursor
      reads this
    {
      IterCursor(iteration, carry, done)
    }

    /** Keep the cursor in every snapshot taken from now on. */
    method Register(ghost live0: Saved, ghost was: Option<IterCursor>, run: RunState)
      requires run.live == match was case None => live0 case Some(c) => WithIter(live0, OwnerPath(k, id), c)
      modifies run`live
      ensures run.live == WithIter(live0, OwnerPath(k, id), Cursor())
    {
      if was.Some? {
        UpdateTwice(live0.iter, OwnerPath(k, id), was.value, Cursor());
      }
      run.live := run.live.(iter := run.live.iter[OwnerPath(k, id) := Cursor()]);
    }

    /** Continue at the pass, carried value and verdict a checkout saved, if any. */
    method TakeSavedPosition(run: RunState)
      modifies this, run`saved
      ensures old(Cursor()) == IterCursor(0, old(carry), Some(false)) ==>
        (Cursor(), run.Config()) == TakePosition(OwnerPath(k, id), old(carry), old(run.Config()))
    {
      var q := OwnerPath(k, id);
      var saved := run.TakeIter(q);
      if saved.Some? {
        iteration, carry, done := saved.value.pass, saved.value.carry, saved.value.done;
      }
    }

    method UntilHolds(run: RunState) returns (r: bool)
      requires t.Iterate?
      modifies run`world, run`halt
      ensures (r, run.Config()) == Engine.UntilHolds(k.e, t.until, carry, old(run.Config()))
    {
      match t.until
      case None => r := false;
      case Some(u) =>
        var x := run.Call(k.e, Until(u), One(carry));
        r := k.e.u.truthy(x);
    }

    /** Drive the loop; its last body result. */
    method Run(run: RunState) returns (out: Outcome, ghost left: Saved)
      requires t.Iterate? && iteration == 0 && done == Some(false)
      requires run.Valid() && Vacant(run.live, run.open, OwnerPath(k, id))
      modifies this, run
      ensures Ends(run, out, RunIterate(t, id, k, old(carry), old(run.Config())), old(run.live), old(run.open), left)
      decreases t, 0
    {
      var q := OwnerPath(k, id);
      assert Marked(q);
      ghost var live0, open0 := run.live, run.open;
      TakeSavedPosition(run);
      run.EnterScope(k.e, t.scope, q);
      Register(live0, None, run);
      ghost var l := Passes(t, id, k, Cursor(), run.Config());
      out, left := LoopPasses(live0, run);
      left := Finish(live0, open0, out, l, left, run);
    }

    /** The loop ended: merge its scope and leave the snapshots, unless it stopped early. */
    method Finish(ghost live0: Saved, ghost open0: map<Path, nat>, out: Outcome, ghost l: LoopRes, ghost under: Saved, run: RunState)
      returns (ghost left: Saved)
      requires t.Iterate? && OwnerPath(k, id) !in live0.iter && OwnerPath(k, id) !in open0
      requires t.scope.Some? ==> |run.world.scopes| > 0
      requires forall p | p in open0 :: open0[p] < |run.world.scopes| - if t.scope.Some? then 1 else 0
      requires LoopEnds(run, out, l, live0, if t.scope.Some? then open0[OwnerPath(k, id) := |run.world.scopes| - 1] else open0, under)
      modifies run
      ensures Ends(run, out, AfterPasses(k.e, t.scope, OwnerPath(k, id), l), live0, open0, left)
    {
      var q := OwnerPath(k, id);
      left := under;
      if out.Done? {
        RemoveUpdated(open0, q, |run.world.scopes| - 1);
        RemoveUpdated(live0.iter, q, Cursor());
        run.LeaveScope(k.e, t.scope, q);
        run.live := run.live.(iter := run.live.iter - {q});
      } else {
        left := Suspended(k.e, t.scope, q, live0, open0, WithIter(under, q, Cursor()), run);
      }
    }

    /** The loop's cursor joins what was left under its pass. */
    ghost predicate LoopEnds(run: RunState, out: Outcome, l: LoopRes, live0: Saved, open: map<Path, nat>, left: Saved)
      reads this, run
    {
      var q := OwnerPath(k, id);
      && out == l.out && iteration == l.pass && carry == l.carry
      && run.world == l.c.w && run.halt == l.c.h && run.open == open
      && (!out.Done? ==> done == Some(false))
      && (out.Done? ==> run.saved == l.c.s && run.live == WithIter(live0, q, Cursor()))
      && (out.Halted? ==>
            && run.live == live0.With(WithIter(left, q, Cursor()))
            && run.saved.With(left) == l.c.s
            && run.saved.With(WithIter(left, q, Cursor())) == WithIter(l.c.s, q, Cursor())
            && (out.inVerb ==> run.inVerb == Some(run.Capture())))
    }

    /** Run passes until a bound, the halt or until stops them. */
    method LoopPasses(ghost live0: Saved, run: RunState) returns (out: Outcome, ghost left: Saved)
      requires t.Iterate?
      requires run.Valid() && VacantIn(live0, run.open, OwnerPath(k, id))
      requires OwnerPath(k, id) !in run.saved.iter
      requires run.live == WithIter(live0, OwnerPath(k, id), Cursor())
      modifies this, run
      ensures LoopEnds(run, out, Passes(t, id, k, old(Cursor()), old(run.Config())), live0, old(run.open), left)
      decreases t.body, |t.body.nodes| + 3, 0
    {
      var q := OwnerPath(k, id);
      ghost var whole, open0 := Passes(t, id, k, Cursor(), run.Config()), run.open;
      left := NOTHING;
      if done.None? {
        var _ := CheckUntil(live0, run);
      }
      if done.value {
        return Done(carry), NOTHING;
      }
      var ended := None;
      while ended.None?
        invariant ended.None? ==>
          && done == Some(false)
          && run.Valid() && run.open == open0 && q !in run.saved.iter
          && run.live == WithIter(live0, q, Cursor())
          && whole == Loop(t, id, k, iteration, carry, run.Config())
        invariant ended.Some? ==> LoopEnds(run, ended.value, whole, live0, open0, left)
        decreases ended.None?, k.e.bound - iteration
      {
        ended, left := Turn(live0, run);
      }
      out := ended.value;
    }

    /** One trip round the loop: stop at a bound or the halt, else run a pass and check until. */
    method Turn(ghost live0: Saved, run: RunState) returns (ended: Option<Outcome>, ghost left: Saved)
      requires t.Iterate? && done == Some(false)
      requires run.Valid() && VacantIn(live0, run.open, OwnerPath(k, id))
      requires OwnerPath(k, id) !in run.saved.iter
      requires run.live == WithIter(live0, OwnerPath(k, id), Cursor())
      modifies this, run
      ensures var whole := Loop(t, id, k, old(iteration), old(carry), old(run.Config()));
        match ended
        case Some(out) => LoopEnds(run, out, whole, live0, old(run.open), left)
        case None =>
          && done == Some(false) && old(iteration) < k.e.bound && iteration == old(iteration) + 1
          && run.Valid() && run.open == old(run.open) && OwnerPath(k, id) !in run.saved.iter
          && run.live == WithIter(live0, OwnerPath(k, id), Cursor())
          && whole == Loop(t, id, k, iteration, carry, run.Config())
      decreases t.body, |t.body.nodes| + 2, 1
    {
      var q := OwnerPath(k, id);
      ended, left := StopAtBound(live0, run);
      if ended.None? {
        ghost var r := Engine.RunFlow(t.body, k.e, Descend(id, "body"), PassPath(q, iteration), k.regions, One(carry), run.Config());
        var out;
        out, left := DispatchBody(live0, r, run);
        if out.Done? {
          ended := Advance(live0, out.value, r, run);
        } else {
          ended := Some(out);
        }
      }
    }

    /** Stop before a pass: at a bound, at the halt, or because the iterate fast-forwards. */
    method StopAtBound(ghost live0: Saved, run: RunState) returns (ended: Option<Outcome>, ghost left: Saved)
      requires t.Iterate? && done == Some(false)
      requires run.live == WithIter(live0, OwnerPath(k, id), Cursor())
      ensures var whole := Loop(t, id, k, iteration, carry, run.Config());
        match ended
        case Some(out) => LoopEnds(run, out, whole, live0, run.open, left)
        case None =>
          && iteration < k.e.bound
          && whole == AfterPass(t, id, k, iteration, carry,
               Engine.RunFlow(t.body, k.e, Descend(id, "body"), PassPath(OwnerPath(k, id), iteration), k.regions, One(carry), run.Config()))
    {
      ended, left := None, NOTHING;
      if t.maxIters.Some? && iteration >= t.maxIters.value {
        ended := Some(Done(carry));
      } else if run.halt.Signaled() {
        left := StopBefore(live0, run);
        ended := Some(Halted(false));
      } else if ShortcutEnds(k, OwnerPath(k, id), iteration, Cfg(run.saved, run.world, run.halt)) {
        ended := Some(Done(carry));
      } else if iteration >= k.e.bound {
        ended := Some(Diverged);
      }
    }

    /** Carry a completed pass's result into the next, unless until stops the loop. */
    method Advance(ghost live0: Saved, result: Value, ghost r: Res, run: RunState) returns (ended: Option<Outcome>)
      requires t.Iterate? && r.out == Done(result) && run.Config() == r.c && iteration < k.e.bound
      requires run.Valid() && OwnerPath(k, id) !in run.saved.iter
      requires run.live == WithIter(live0, OwnerPath(k, id), Cursor())
      modifies this, run`world, run`halt, run`live
      ensures var whole := AfterPass(t, id, k, old(iteration), old(carry), r);
        && iteration == old(iteration) + 1 && run.live == WithIter(live0, OwnerPath(k, id), Cursor())
        && run.Valid()
        && match ended
           case Some(out) => whole == LoopRes(out, iteration, carry, run.Config()) && out == Done(carry)
           case None => done == Some(false) && whole == Loop(t, id, k, iteration, carry, run.Config())
    {
      ghost var was := Cursor();
      carry, iteration, done := result, iteration + 1, None;
      Register(live0, Some(was), run);
      var stop := CheckUntil(live0, run);
      ended := if stop then Some(Done(carry)) else None;
    }

    /** Record until's verdict on the carried value. */
    method CheckUntil(ghost live0: Saved, run: RunState) returns (verdict: bool)
      requires t.Iterate? && run.live == WithIter(live0, OwnerPath(k, id), Cursor())
      modifies this`done, run`world, run`halt, run`live
      ensures done == Some(verdict)
      ensures (verdict, run.Config()) == Engine.UntilHolds(k.e, t.until, carry, old(run.Config()))
      ensures run.live == WithIter(live0, OwnerPath(k, id), Cursor())
    {
      ghost var was := Cursor();
      verdict := UntilHolds(run);
      done := Some(verdict);
      Register(live0, Some(was), run);
    }

    /** The halt stopped the loop before a pass: the cursor is at the pass that has not run. */
    method StopBefore(ghost live0: Saved, run: RunState) returns (ghost left: Saved)
      requires t.Iterate? && run.live == WithIter(live0, OwnerPath(k, id), Cursor()) && done == Some(false)
      ensures LoopEnds(run, Halted(false), LoopRes(Halted(false), iteration, carry, run.Config()), live0, run.open, left)
    {
      var q := OwnerPath(k, id);
      left := NOTHING;
      NothingLeft(run.saved);
      NothingLeft(live0);
      IterLeft(live0, NOTHING, q, Cursor());
      IterLeft(run.saved, NOTHING, q, Cursor());
    }

    /** Run one pass of the body. */
    method DispatchBody(ghost live0: Saved, ghost r: Res, run: RunState) returns (out: Outcome, ghost left: Saved)
      requires t.Iterate? && run.Valid() && VacantIn(live0, run.open, OwnerPath(k, id))
      requires OwnerPath(k, id) !in run.saved.iter && done == Some(false)
      requires run.live == WithIter(live0, OwnerPath(k, id), Cursor())
      requires r == Engine.RunFlow(t.body, k.e, Descend(id, "body"), PassPath(OwnerPath(k, id), iteration), k.regions, One(carry), run.Config())
      modifies run
      ensures if out.Done?
        then
          && out == r.out && run.Config() == r.c && run.Valid() && run.open == old(run.open)
          && run.live == old(run.live) && OwnerPath(k, id) !in run.saved.iter
        else LoopEnds(run, out, LoopRes(r.out, iteration, carry, r.c), live0, old(run.open), left)
      decreases t.body, |t.body.nodes| + 2, 0
    {
      var q := OwnerPath(k, id);
      var passPath := PassPath(q, iteration);
      ghost var s0 := run.saved;
      VacantBelow(run.live, run.open, q, passPath);
      assert Marked(passPath) && Marked(q);
      out, left := RunAsSubflow(t.body, k.e, Descend(id, "body"), passPath, k.regions, One(carry), run);
      PassFits(q, iteration, s0, r.c.s);
      if out.Halted? {
        IterLeft(live0, left, q, Cursor());
        IterLeft(run.saved, left, q, Cursor());
      }
    }
  }
}
