/** A run only ever adds to the calls already made and to the signals that are set: what completed
    stays completed. */
module Progress {
  import opened Wrappers
  import opened NodeIds
  import opened FlowModel
  import opened Engine

  ghost predicate Extends(a: World, b: World) {
    |a.log| <= |b.log| && b.log[..|a.log|] == a.log && a.signals <= b.signals
  }

  lemma ExtendsTransitive(a: World, b: World, c: World)
    requires Extends(a, b) && Extends(b, c)
    ensures Extends(a, c)
  {
    assert c.log[..|a.log|] == c.log[..|b.log|][..|a.log|];
  }

  lemma {:induction false} FlowExtends(f: Flow, e: Env, context: Context, path: Path, regions: seq<Region>, input: Inputs, c: Cfg)
    ensures Extends(c.w, RunFlow(f, e, context, path, regions, input, c).c.w)
    decreases f, |f.nodes| + 1, 0
  {
    if |f.nodes| != 0 {
      var k := Frame(e, context, path, regions + RegionOf(f), input);
      if path !in c.s.chain {
        WalkExtends(f, k, None, 0, None, c);
      } else {
        var cursor := c.s.chain[path];
        var c1 := c.(s := c.s.(chain := c.s.chain - {path}));
        var ids := Ids(context, Keys(f));
        if cursor.step in ids {
          var i := IndexOf(ids, cursor.step);
          WalkExtends(f, k, Some(At(i, cursor)), i, if cursor.Pending? then Some(cursor.prev) else None, c1);
        }
      }
    }
  }

  lemma {:induction false} WalkExtends(f: Flow, k: Frame, at: Option<At>, index: nat, last: Option<Value>, c: Cfg)
    requires index <= |f.nodes|
    ensures Extends(c.w, Walk(f, k, at, index, last, c).c.w)
    decreases f, |f.nodes| - index, 0
  {
    if index < |f.nodes| {
      var n := f.nodes[index];
      if !Rerun(at) && !n.conclude && FastForward(k.regions, c.w.signals) {
        WalkExtends(f, k, None, index + 1, last, c);
      } else {
        var (inputs, c1) := InputsAt(k, at, index, n, last, c);
        StepExtends(f, k, index, inputs, c1);
        ExtendsTransitive(c.w, c1.w, WalkStep(f, k, index, inputs, c1).c.w);
      }
    }
  }

  lemma {:induction false} StepExtends(f: Flow, k: Frame, index: nat, inputs: Inputs, c: Cfg)
    requires index < |f.nodes|
    ensures Extends(c.w, WalkStep(f, k, index, inputs, c).c.w)
    decreases f, |f.nodes| - index - 1, 2
  {
    var id := IdAt(k.context, Keys(f), index);
    var r := RunNode(f.nodes[index], id, k, inputs, c);
    NodeExtends(f.nodes[index], id, k, inputs, c);
    if r.out.Done? {
      if r.c.h.Signaled() && index + 1 < |f.nodes| {
        ExtendsTransitive(c.w, r.c.w, MoveTo(f, k, index + 1, r.out.value, r.c).c.w);
      } else {
        WalkExtends(f, k, None, index + 1, Some(r.out.value), r.c);
        ExtendsTransitive(c.w, r.c.w, Walk(f, k, None, index + 1, Some(r.out.value), r.c).c.w);
      }
    }
  }

  lemma {:induction false} NodeExtends(n: Node, id: NodeId, k: Frame, inputs: Inputs, c: Cfg)
    ensures Extends(c.w, RunNode(n, id, k, inputs, c).c.w)
    decreases n, 0, 0
  {
    var q := OwnerPath(k, id);
    match n.target
    case Step(verb) =>
    case Call(body, scope) =>
      var c1 := Enter(k.e, scope, q, c);
      var r := RunFlow(body, k.e, Descend(id, "call"), q, k.regions, inputs, c1);
      FlowExtends(body, k.e, Descend(id, "call"), q, k.regions, inputs, c1);
      ExtendsTransitive(c.w, c1.w, r.c.w);
      ExtendsTransitive(c.w, r.c.w, RunCall(body, scope, id, k, inputs, c).c.w);
    case Branch(when, thenFlow, elseFlow) =>
      BranchExtends(n.target, id, k, First(k.e.u, inputs), c);
    case Iterate(body, until, maxIters, scope) =>
      IterateExtends(n.target, id, k, First(k.e.u, inputs), c);
  }

  lemma {:induction false} BranchExtends(t: Target, id: NodeId, k: Frame, v: Value, c: Cfg)
    requires t.Branch?
    ensures Extends(c.w, RunBranch(t, id, k, v, c).c.w)
    decreases t, 0, 0
  {
    var q := OwnerPath(k, id);
    var (verdict, c1) := Verdict(k.e, t.when, q, v, c);
    if verdict {
      FlowExtends(t.thenFlow, k.e, Descend(id, "then"), q, k.regions, One(v), c1);
      ExtendsTransitive(c.w, c1.w, RunFlow(t.thenFlow, k.e, Descend(id, "then"), q, k.regions, One(v), c1).c.w);
    } else if t.elseFlow.Some? {
      FlowExtends(t.elseFlow.value, k.e, Descend(id, "else"), q, k.regions, One(v), c1);
      ExtendsTransitive(c.w, c1.w, RunFlow(t.elseFlow.value, k.e, Descend(id, "else"), q, k.regions, One(v), c1).c.w);
    }
  }

  lemma {:induction false} IterateExtends(t: Target, id: NodeId, k: Frame, v: Value, c: Cfg)
    requires t.Iterate?
    ensures Extends(c.w, RunIterate(t, id, k, v, c).c.w)
    decreases t, 0, 0
  {
    var q := OwnerPath(k, id);
    var (at, c1) := TakePosition(q, v, c);
    var c2 := Enter(k.e, t.scope, q, c1);
    var (done, c3) := if at.done.None? then UntilHolds(k.e, t.until, at.carry, c2) else (at.done.value, c2);
    ExtendsTransitive(c.w, c2.w, c3.w);
    var l := Passes(t, id, k, at, c2);
    if !done {
      LoopExtends(t, id, k, at.pass, at.carry, c3);
      ExtendsTransitive(c.w, c3.w, l.c.w);
    }
    ExtendsTransitive(c.w, l.c.w, RunIterate(t, id, k, v, c).c.w);
  }

  lemma {:induction false} LoopExtends(t: Target, id: NodeId, k: Frame, pass: nat, carry: Value, c: Cfg)
    requires t.Iterate?
    ensures Extends(c.w, Loop(t, id, k, pass, carry, c).c.w)
    decreases t.body, |t.body.nodes| + 2, k.e.bound - pass, 0
  {
    var q := OwnerPath(k, id);
    if t.maxIters.Some? && pass >= t.maxIters.value {
    } else if c.h.Signaled() {
    } else if ShortcutEnds(k, q, pass, c) {
    } else if pass >= k.e.bound {
    } else {
      var r := RunFlow(t.body, k.e, Descend(id, "body"), PassPath(q, pass), k.regions, One(carry), c);
      FlowExtends(t.body, k.e, Descend(id, "body"), PassPath(q, pass), k.regions, One(carry), c);
      if r.out.Done? {
        var (done, c1) := UntilHolds(k.e, t.until, r.out.value, r.c);
        ExtendsTransitive(c.w, r.c.w, c1.w);
        if !done {
          LoopExtends(t, id, k, pass + 1, r.out.value, c1);
          ExtendsTransitive(c.w, c1.w, Loop(t, id, k, pass + 1, r.out.value, c1).c.w);
        }
      }
    }
  }
}
