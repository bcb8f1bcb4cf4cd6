/** What a resumed run is called with does not matter: its chain is past its first step, or is running
    it with the input its cursor holds. */
module ResumedInputs {
  import opened Wrappers
  import opened NodeIds
  import opened FlowModel
  import opened Engine

  function Given(k: Frame, input: Inputs): Frame { k.(input := input) }

  /** A node does not read what its chain was called with. */
  lemma {:induction false} NodeIgnoresInput(n: Node, id: NodeId, k: Frame, other: Inputs, inputs: Inputs, c: Cfg)
    ensures RunNode(n, id, k, inputs, c) == RunNode(n, id, Given(k, other), inputs, c)
  {
    var v := First(k.e.u, inputs);
    if n.target.Iterate? {
      var q := OwnerPath(k, id);
      var (at, c1) := TakePosition(q, v, c);
      var c2 := Enter(k.e, n.target.scope, q, c1);
      var (done, c3) := if at.done.None? then UntilHolds(k.e, n.target.until, at.carry, c2) else (at.done.value, c2);
      if !done {
        LoopIgnoresInput(n.target, id, k, other, at.pass, at.carry, c3);
      }
      assert Passes(n.target, id, k, at, c2) == Passes(n.target, id, Given(k, other), at, c2);
    }
  }

  lemma {:induction false} LoopIgnoresInput(t: Target, id: NodeId, k: Frame, other: Inputs, pass: nat, carry: Value, c: Cfg)
    requires t.Iterate?
    ensures Loop(t, id, k, pass, carry, c) == Loop(t, id, Given(k, other), pass, carry, c)
    decreases k.e.bound - pass
  {
    if !(t.maxIters.Some? && pass >= t.maxIters.value) && !c.h.Signaled()
       && !ShortcutEnds(k, OwnerPath(k, id), pass, c) && pass < k.e.bound {
      var r := RunFlow(t.body, k.e, Descend(id, "body"), PassPath(OwnerPath(k, id), pass), k.regions, One(carry), c);
      if r.out.Done? {
        var (done, c1) := UntilHolds(k.e, t.until, r.out.value, r.c);
        if !done {
          LoopIgnoresInput(t, id, k, other, pass + 1, r.out.value, c1);
        }
      }
      assert AfterPass(t, id, k, pass, carry, r) == AfterPass(t, id, Given(k, other), pass, carry, r);
    }
  }

  /** Past its first step a chain goes on from results alone. */
  lemma {:induction false} WalkIgnoresInput(f: Flow, k: Frame, other: Inputs, index: nat, last: Value, c: Cfg)
    requires 0 < index <= |f.nodes|
    ensures Walk(f, k, None, index, Some(last), c) == Walk(f, Given(k, other), None, index, Some(last), c)
    decreases |f.nodes| - index, 0
  {
    if index < |f.nodes| {
      var n := f.nodes[index];
      if !n.conclude && FastForward(k.regions, c.w.signals) {
        WalkIgnoresInput(f, k, other, index + 1, last, c);
      } else {
        var (inputs, c1) := InputsAt(k, None, index, n, Some(last), c);
        StepIgnoresInput(f, k, other, index, inputs, c1);
      }
    }
  }

  lemma {:induction false} StepIgnoresInput(f: Flow, k: Frame, other: Inputs, index: nat, inputs: Inputs, c: Cfg)
    requires index < |f.nodes|
    ensures WalkStep(f, k, index, inputs, c) == WalkStep(f, Given(k, other), index, inputs, c)
    decreases |f.nodes| - index - 1, 1
  {
    var id := IdAt(k.context, Keys(f), index);
    var r := RunNode(f.nodes[index], id, k, inputs, c);
    NodeIgnoresInput(f.nodes[index], id, k, other, inputs, c);
    if r.out.Done? {
      if r.c.h.Signaled() && index + 1 < |f.nodes| {
        assert MoveTo(f, k, index + 1, r.out.value, r.c) == MoveTo(f, Given(k, other), index + 1, r.out.value, r.c);
      } else {
        WalkIgnoresInput(f, k, other, index + 1, r.out.value, r.c);
      }
    }
    assert AfterStep(f, k, index, inputs, r) == AfterStep(f, Given(k, other), index, inputs, r);
  }

  /** The cursor is at a step that had started, or past the chain's first step. */
  predicate Started(f: Flow, context: Context, cursor: ChainCursor) {
    cursor.Pending? ==> |f.nodes| > 0 && cursor.step != IdAt(context, Keys(f), 0)
  }

  /** A chain resumed from such a cursor does not read what it is called with. */
  lemma ResumedIgnoresInput(f: Flow, e: Env, context: Context, path: Path, regions: seq<Region>, input: Inputs, other: Inputs, c: Cfg)
    requires path in c.s.chain && Started(f, context, c.s.chain[path])
    ensures RunFlow(f, e, context, path, regions, input, c) == RunFlow(f, e, context, path, regions, other, c)
  {
    if |f.nodes| > 0 {
      var k := Frame(e, context, path, regions + RegionOf(f), input);
      var cursor := c.s.chain[path];
      var c1 := c.(s := c.s.(chain := c.s.chain - {path}));
      var ids := Ids(context, Keys(f));
      if cursor.step in ids {
        var i := IndexOf(ids, cursor.step);
        var at, last := Some(At(i, cursor)), if cursor.Pending? then Some(cursor.prev) else None;
        var n := f.nodes[i];
        assert Given(k, other) == Frame(e, context, path, regions + RegionOf(f), other);
        if !Rerun(at) && !n.conclude && FastForward(k.regions, c1.w.signals) {
          WalkIgnoresInput(f, k, other, i + 1, cursor.prev, c1);
        } else {
          var (inputs, c2) := InputsAt(k, at, i, n, last, c1);
          assert InputsAt(Given(k, other), at, i, n, last, c1) == (inputs, c2);
          StepIgnoresInput(f, k, other, i, inputs, c2);
        }
      }
    }
  }

  // ----- every halted chain leaves such a cursor -----

  lemma {:induction false} FlowLeavesStarted(f: Flow, e: Env, context: Context, path: Path, regions: seq<Region>, input: Inputs, c: Cfg)
    ensures var r := RunFlow(f, e, context, path, regions, input, c);
      r.out.Halted? ==> path in r.c.s.chain && Started(f, context, r.c.s.chain[path])
  {
    if |f.nodes| > 0 {
      var k := Frame(e, context, path, regions + RegionOf(f), input);
      if path !in c.s.chain {
        WalkLeavesStarted(f, k, None, 0, None, c);
      } else {
        var cursor := c.s.chain[path];
        var c1 := c.(s := c.s.(chain := c.s.chain - {path}));
        var ids := Ids(context, Keys(f));
        if cursor.step in ids {
          var i := IndexOf(ids, cursor.step);
          WalkLeavesStarted(f, k, Some(At(i, cursor)), i, if cursor.Pending? then Some(cursor.prev) else None, c1);
        }
      }
    }
  }

  lemma {:induction false} WalkLeavesStarted(f: Flow, k: Frame, at: Option<At>, index: nat, last: Option<Value>, c: Cfg)
    requires index <= |f.nodes|
    ensures var r := Walk(f, k, at, index, last, c);
      r.out.Halted? ==> k.path in r.c.s.chain && Started(f, k.context, r.c.s.chain[k.path])
    decreases |f.nodes| - index
  {
    if index < |f.nodes| {
      var n := f.nodes[index];
      if !Rerun(at) && !n.conclude && FastForward(k.regions, c.w.signals) {
        WalkLeavesStarted(f, k, None, index + 1, last, c);
      } else {
        var (inputs, c1) := InputsAt(k, at, index, n, last, c);
        var r := RunNode(n, IdAt(k.context, Keys(f), index), k, inputs, c1);
        assert Walk(f, k, at, index, last, c) == AfterStep(f, k, index, inputs, r);
        if r.out.Done? {
          if r.c.h.Signaled() && index + 1 < |f.nodes| {
            IdsDistinct(k.context, Keys(f), 0, index + 1);
            var ids := Ids(k.context, Keys(f));
            assert ids[0] == IdAt(k.context, Keys(f), 0) && ids[index + 1] == IdAt(k.context, Keys(f), index + 1);
            var stopped := MoveTo(f, k, index + 1, r.out.value, r.c);
            assert StopsAt(f, k, index + 1, r.out.value, r.c, stopped.c.s.chain[k.path]);
          } else {
            WalkLeavesStarted(f, k, None, index + 1, Some(r.out.value), r.c);
            assert AfterStep(f, k, index, inputs, r) == Walk(f, k, None, index + 1, Some(r.out.value), r.c);
          }
        }
      }
    }
  }
}
