/** Fast-forward: what a flow does from the moment the signal of a region it is in is set. */
module Shortcuts {
  import opened Wrappers
  import opened NodeIds
  import opened FlowModel
  import opened Engine
  import opened Reference
  import opened Sessions
  import Transparency

  // ----- what a cut flow does, without regions or signals -----

  function CutFlow(f: Flow, e: Env, input: Inputs, w: World): Val
    decreases f, |f.nodes| + 1
  {
    if |f.nodes| == 0 then Val(Failed(EmptyFlow), w) else CutChain(f, e, input, 0, None, w)
  }

  /** Only the conclude steps run, each on the last completed result (the chain's input while none
      completed). */
  function CutChain(f: Flow, e: Env, input: Inputs, index: nat, last: Option<Value>, w: World): Val
    requires index <= |f.nodes|
    decreases f, |f.nodes| - index
  {
    if index == |f.nodes| then Val(Done(PassedThrough(e.u, last, input)), w)
    else if !f.nodes[index].conclude then CutChain(f, e, input, index + 1, last, w)
    else
      var (inputs, w1) := Feed(e, index, f.nodes[index], PassedThrough(e.u, last, input), input, w);
      var r := CutNode(f.nodes[index], e, inputs, w1);
      if r.out.Done? then CutChain(f, e, input, index + 1, Some(r.out.value), r.w) else r
  }

  /** An iterate runs no pass: it opens and merges its scope and returns the value it was given. */
  function CutNode(n: Node, e: Env, inputs: Inputs, w: World): Val
    decreases n, 0
  {
    var v := First(e.u, inputs);
    match n.target
    case Step(verb) =>
      var (x, w1) := Ask(e, Verb(verb), inputs, w);
      Val(Done(x), w1)
    case Call(body, scope) => Closed(e, scope, CutFlow(body, e, inputs, Opened(e, scope, w)))
    case Branch(when, thenFlow, elseFlow) =>
      var (x, w1) := Ask(e, When(when), One(v), w);
      if e.u.truthy(x) then CutFlow(thenFlow, e, One(v), w1)
      else if elseFlow.Some? then CutFlow(elseFlow.value, e, One(v), w1)
      else Val(Done(v), w1)
    case Iterate(_, _, _, scope) => Closed(e, scope, Val(Done(v), Opened(e, scope, w)))
  }

  // ----- a fast-forwarding flow does just that -----

  /** A region that cuts goes on cutting whatever is entered under it and whatever is set later. */
  lemma StaysFastForward(regions: seq<Region>, more: seq<Region>, signals: set<string>, later: set<string>)
    requires FastForward(regions, signals) && signals <= later
    ensures FastForward(regions + more, later)
  {
    var r :| r in regions && !r.left && r.signal in signals;
    assert r in regions + more;
  }

  lemma {:induction false} FlowIsCut(f: Flow, e: Env, regions: seq<Region>, input: Inputs, w: World)
    requires FastForward(regions, w.signals)
    ensures EvalFlow(f, e, regions, input, w) == CutFlow(f, e, input, w)
    decreases f, |f.nodes| + 1
  {
    StaysFastForward(regions, RegionOf(f), w.signals, w.signals);
    if |f.nodes| != 0 {
      ChainIsCut(f, e, regions + RegionOf(f), input, 0, None, w);
    }
  }

  /** From the moment the signal is set, wherever in its chain a flow is, the chain ends as the fold
      of its remaining conclude steps over its last completed result. */
  lemma {:induction false} ChainIsCut(f: Flow, e: Env, regions: seq<Region>, input: Inputs, index: nat, last: Option<Value>, w: World)
    requires index <= |f.nodes| && FastForward(regions, w.signals)
    ensures EvalChain(f, e, regions, input, index, last, w) == CutChain(f, e, input, index, last, w)
    decreases f, |f.nodes| - index
  {
    if index < |f.nodes| {
      var n := f.nodes[index];
      if !n.conclude {
        ChainIsCut(f, e, regions, input, index + 1, last, w);
      } else {
        var (inputs, w1) := Feed(e, index, n, PassedThrough(e.u, last, input), input, w);
        NodeIsCut(n, e, regions, inputs, w1);
        var r := EvalNode(n, e, regions, inputs, w1);
        if r.out.Done? {
          StaysFastForward(regions, [], w.signals, r.w.signals);
          assert regions + [] == regions;
          ChainIsCut(f, e, regions, input, index + 1, Some(r.out.value), r.w);
        }
      }
    }
  }

  lemma {:induction false} NodeIsCut(n: Node, e: Env, regions: seq<Region>, inputs: Inputs, w: World)
    requires FastForward(regions, w.signals)
    ensures EvalNode(n, e, regions, inputs, w) == CutNode(n, e, inputs, w)
    decreases n, 0
  {
    assert regions + [] == regions;
    var v := First(e.u, inputs);
    match n.target
    case Step(verb) =>
    case Call(body, scope) =>
      var w1 := Opened(e, scope, w);
      StaysFastForward(regions, [], w.signals, w1.signals);
      FlowIsCut(body, e, regions, inputs, w1);
    case Branch(when, thenFlow, elseFlow) =>
      var (x, w1) := Ask(e, When(when), One(v), w);
      StaysFastForward(regions, [], w.signals, w1.signals);
      if e.u.truthy(x) {
        FlowIsCut(thenFlow, e, regions, One(v), w1);
      } else if elseFlow.Some? {
        FlowIsCut(elseFlow.value, e, regions, One(v), w1);
      }
    case Iterate(_, _, _, scope) =>
      StaysFastForward(regions, [], w.signals, Opened(e, scope, w).signals);
  }

  /** The engine's chain does the same: with nothing saved under it and no halt to come. */
  lemma EngineChainIsCut(f: Flow, k: Frame, index: nat, last: Option<Value>, c: Cfg)
    requires index <= |f.nodes| && c.h.Never? && Fresh(c.s, k.path) && FastForward(k.regions, c.w.signals)
    ensures Means(c, Walk(f, k, None, index, last, c), CutChain(f, k.e, k.input, index, last, c.w))
  {
    FreshChain(f, k, index, last, c);
    ChainIsCut(f, k.e, k.regions, k.input, index, last, c.w);
  }

  /** A run started or resumed with its region's signal set, and halted and resumed any number of
      times, goes on fast-forwarding: it does what it would have done without a halt. */
  lemma HaltedCutStaysCut(f: Flow, e: Env, state: Value, signals: set<string>, attempts: seq<Attempt>, last: Inputs)
    requires f.shortcut.Some? && f.shortcut.value.signal in signals
    ensures var r := RunThrough(f, e, Snapshot(state, NOTHING, signals), [], attempts, last);
      var v := CutFlow(f, e, FirstInput(attempts, last), World([state], signals, []));
      r.out == v.out && r.c.w == v.w && (r.out.Done? ==> r.c.s == NOTHING)
  {
    var snap, w, input := Snapshot(state, NOTHING, signals), World([state], signals, []), FirstInput(attempts, last);
    HaltsAreInvisible(f, e, snap, [], attempts, last);
    FreshFlow(f, e, Root, [], [], input, Checkout(snap, [], Never));
    if |f.nodes| > 0 {
      assert Region(f.shortcut.value.signal, f.shortcut.value.drain, false) in [] + RegionOf(f);
      ChainIsCut(f, e, [] + RegionOf(f), input, 0, None, w);
    }
  }

  /** Any chain, however deep and at whatever step the cut finds it, halted while it fast-forwards and
      resumed, ends as the fold of its remaining conclude steps. */
  lemma HaltedChainStaysCut(f: Flow, k: Frame, regions: seq<Region>, index: nat, last: Option<Value>, c: Cfg)
    requires index <= |f.nodes| && k.regions == regions + RegionOf(f)
    requires Fresh(c.s, k.path) && FastForward(k.regions, c.w.signals)
    ensures var r := Walk(f, k, None, index, last, c);
      r.out.Halted? ==>
        Means(c, Transparency.Resumed(f, k, regions, r.c), CutChain(f, k.e, k.input, index, last, c.w))
  {
    assert Under(k.path, k.path);
    Transparency.WalkContinues(f, k, regions, None, index, last, c);
    EngineChainIsCut(f, k, index, last, Transparency.Unhalted(c));
  }

  // ----- deferred inputs -----

  function WithCursor(c: Cfg, path: Path, cursor: ChainCursor): Cfg {
    c.(s := c.s.(chain := c.s.chain[path := cursor]))
  }

  /** A chain stopped while it fast-forwarded left the next step's input uncomputed. Resumed with
      the signal unset it goes on exactly as from the cursor it would have left without the signal. */
  lemma DeferredInputIsRecomputed(f: Flow, k: Frame, regions: seq<Region>, index: nat, prev: Value, c: Cfg)
    requires 0 < index < |f.nodes| && k.regions == regions + RegionOf(f)
    requires !FastForward(k.regions, c.w.signals) && k.path !in c.s.chain
    ensures var id := IdAt(k.context, Keys(f), index);
      var (inputs, c1) := StepInputs(k.e, index, f.nodes[index], prev, k.input, c);
      RunFlow(f, k.e, k.context, k.path, regions, k.input, WithCursor(c, k.path, Pending(id, One(prev), prev, true)))
      == RunFlow(f, k.e, k.context, k.path, regions, k.input, MoveTo(f, k, index, prev, c).c)
  {
    var id := IdAt(k.context, Keys(f), index);
    var (inputs, c1) := StepInputs(k.e, index, f.nodes[index], prev, k.input, c);
    assert Ids(k.context, Keys(f))[index] == id;
    IndexOfOwn(k.context, Keys(f), index);
    var deferred := Pending(id, One(prev), prev, true);
    var computed := Pending(id, inputs, prev, false);
    assert WithCursor(c, k.path, deferred).s.chain - {k.path} == c.s.chain;
    assert WithCursor(c1, k.path, computed).s.chain - {k.path} == c1.s.chain;
    assert MoveTo(f, k, index, prev, c).c == WithCursor(c1, k.path, computed);
  }
}
