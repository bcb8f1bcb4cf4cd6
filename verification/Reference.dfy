/** The meaning of a flow with nothing to stop it: no halts, no cursors, no paths and no registry,
    just the composition tree evaluated in order. */
module Reference {
  import opened Wrappers
  import opened FlowModel
  import opened Engine

  datatype Val = Val(out: Outcome, w: World)

  function Ask(e: Env, callee: Callee, input: Inputs, w: World): (r: (Value, World))
    ensures |r.1.scopes| == |w.scopes|
    ensures w.signals <= r.1.signals
  {
    Invoke(e.u, callee, input, w)
  }

  function Opened(e: Env, scope: Option<Scope>, w: World): (r: World)
    ensures |r.scopes| == |w.scopes| + if scope.Some? then 1 else 0
    ensures w.signals <= r.signals
  {
    match scope
    case None => w
    case Some(sc) =>
      var (v, w1) := Ask(e, OpenScope(sc.projection), One(Current(e.u, w.scopes)), w);
      w1.(scopes := w1.scopes + [v])
  }

  function Merged(e: Env, scope: Option<Scope>, w: World): (r: World)
    ensures |w.scopes| > 0 || scope.None? ==> |r.scopes| == |w.scopes| - if scope.Some? then 1 else 0
    ensures w.signals <= r.signals
  {
    match scope
    case None => w
    case Some(sc) =>
      var w1 := match sc.merge
        case None => w
        case Some(m) =>
          Ask(e, Merge(m), Inputs([Current(e.u, Parents(w.scopes)), Current(e.u, w.scopes)], map[]), w).1;
      w1.(scopes := Parents(w1.scopes))
  }

  function Feed(e: Env, index: nat, n: Node, prev: Value, input: Inputs, w: World): (r: (Inputs, World))
    ensures r.1 == w.(log := r.1.log)
  {
    if index == 0 then (input, w)
    else match n.project
      case None => (One(prev), w)
      case Some(p) => (One(e.u.project(p, prev)), w.(log := w.log + [Event(Project(p), One(prev))]))
  }

  function EvalFlow(f: Flow, e: Env, regions: seq<Region>, input: Inputs, w: World): (r: Val)
    ensures |r.w.scopes| == |w.scopes| && w.signals <= r.w.signals
    decreases f, |f.nodes| + 1, 0
  {
    if |f.nodes| == 0 then Val(Failed(EmptyFlow), w)
    else EvalChain(f, e, regions + RegionOf(f), input, 0, None, w)
  }

  function EvalChain(f: Flow, e: Env, regions: seq<Region>, input: Inputs, index: nat, last: Option<Value>, w: World): (r: Val)
    requires index <= |f.nodes|
    ensures |r.w.scopes| == |w.scopes| && w.signals <= r.w.signals
    decreases f, |f.nodes| - index, 0
  {
    if index == |f.nodes| then Val(Done(PassedThrough(e.u, last, input)), w)
    else
      var n := f.nodes[index];
      if !n.conclude && FastForward(regions, w.signals) then EvalChain(f, e, regions, input, index + 1, last, w)
      else
        var (inputs, w1) := Feed(e, index, n, PassedThrough(e.u, last, input), input, w);
        var r := EvalNode(n, e, regions, inputs, w1);
        if r.out.Done? then EvalChain(f, e, regions, input, index + 1, Some(r.out.value), r.w) else r
  }

  function EvalNode(n: Node, e: Env, regions: seq<Region>, inputs: Inputs, w: World): (r: Val)
    ensures |r.w.scopes| == |w.scopes| && w.signals <= r.w.signals
    decreases n, 0, 0
  {
    var v := First(e.u, inputs);
    match n.target
    case Step(verb) =>
      var (x, w1) := Ask(e, Verb(verb), inputs, w);
      Val(Done(x), w1)
    case Call(body, scope) =>
      Closed(e, scope, EvalFlow(body, e, regions, inputs, Opened(e, scope, w)))
    case Branch(when, thenFlow, elseFlow) =>
      EvalBranch(n.target, e, regions, v, w)
    case Iterate(body, until, maxIters, scope) =>
      Closed(e, scope, EvalLoop(n.target, e, regions, 0, v, Opened(e, scope, w)))
  }

  function EvalBranch(t: Target, e: Env, regions: seq<Region>, v: Value, w: World): (r: Val)
    requires t.Branch?
    ensures |r.w.scopes| == |w.scopes| && w.signals <= r.w.signals
    decreases t, 0, 0
  {
    var (x, w1) := Ask(e, When(t.when), One(v), w);
    if e.u.truthy(x) then EvalFlow(t.thenFlow, e, regions, One(v), w1)
    else if t.elseFlow.Some? then EvalFlow(t.elseFlow.value, e, regions, One(v), w1)
    else Val(Done(v), w1)
  }

  /** A block that completed merges; one that did not leaves its scope unmerged. */
  function Closed(e: Env, scope: Option<Scope>, r: Val): Val {
    if r.out.Done? then Val(r.out, Merged(e, scope, r.w))
    else Val(r.out, if scope.Some? then r.w.(scopes := Parents(r.w.scopes)) else r.w)
  }

  function EvalLoop(t: Target, e: Env, regions: seq<Region>, pass: nat, carry: Value, w: World): (r: Val)
    requires t.Iterate?
    ensures |r.w.scopes| == |w.scopes| && w.signals <= r.w.signals
    decreases t.body, |t.body.nodes| + 2, e.bound - pass
  {
    if t.maxIters.Some? && pass >= t.maxIters.value then Val(Done(carry), w)
    else if FastForward(regions, w.signals) then Val(Done(carry), w)
    else if pass >= e.bound then Val(Diverged, w)
    else
      var r := EvalFlow(t.body, e, regions, One(carry), w);
      if !r.out.Done? then r
      else match t.until
        case None => EvalLoop(t, e, regions, pass + 1, r.out.value, r.w)
        case Some(u) =>
          var (x, w1) := Ask(e, Until(u), One(r.out.value), r.w);
          if e.u.truthy(x) then Val(r.out, w1)
          else EvalLoop(t, e, regions, pass + 1, r.out.value, w1)
  }

  // ----- a fresh run has this meaning -----

  /** No saved entry is at or below p. */
  ghost predicate Fresh(s: Saved, p: Path) { !s.HoldsUnder(p) }

  lemma FreshBelow(s: Saved, p: Path, q: Path)
    requires Fresh(s, p) && Under(p, q)
    ensures Fresh(s, q)
  {
    forall r: Path | Under(q, r) ensures Under(p, r) { UnderTransitive(p, q, r); }
  }

  /** An unhalted run that takes nothing from a checkout is the evaluation of its tree. */
  ghost predicate Means(c: Cfg, r: Res, v: Val) {
    r == Res(v.out, Cfg(c.s, v.w, Never)) || (!v.out.Done? && r.out == v.out && r.c.w == v.w)
  }

  lemma {:induction false} FreshFlow(f: Flow, e: Env, context: NodeIds.Context, path: Path, regions: seq<Region>, input: Inputs, c: Cfg)
    requires c.h.Never? && Fresh(c.s, path)
    ensures Means(c, RunFlow(f, e, context, path, regions, input, c), EvalFlow(f, e, regions, input, c.w))
    decreases f, |f.nodes| + 1, 0
  {
    assert Under(path, path);
    if |f.nodes| != 0 {
      FreshChain(f, Frame(e, context, path, regions + RegionOf(f), input), 0, None, c);
    }
  }

  lemma {:induction false} FreshChain(f: Flow, k: Frame, index: nat, last: Option<Value>, c: Cfg)
    requires index <= |f.nodes| && c.h.Never? && Fresh(c.s, k.path)
    ensures Means(c, Walk(f, k, None, index, last, c), EvalChain(f, k.e, k.regions, k.input, index, last, c.w))
    decreases f, |f.nodes| - index, 0
  {
    if index < |f.nodes| {
      var n := f.nodes[index];
      if !n.conclude && FastForward(k.regions, c.w.signals) {
        FreshChain(f, k, index + 1, last, c);
      } else {
        var (inputs, c1) := InputsAt(k, None, index, n, last, c);
        var id := NodeIds.IdAt(k.context, Keys(f), index);
        FreshBelow(c.s, k.path, OwnerPath(k, id));
        FreshNode(n, id, k, inputs, c1);
        var r := EvalNode(n, k.e, k.regions, inputs, c1.w);
        assert Walk(f, k, None, index, last, c) == AfterStep(f, k, index, inputs, RunNode(n, id, k, inputs, c1));
        if r.out.Done? {
          FreshChain(f, k, index + 1, Some(r.out.value), Cfg(c.s, r.w, Never));
        }
      }
    }
  }

  lemma {:induction false} FreshNode(n: Node, id: NodeIds.NodeId, k: Frame, inputs: Inputs, c: Cfg)
    requires c.h.Never? && Fresh(c.s, OwnerPath(k, id))
    ensures Means(c, RunNode(n, id, k, inputs, c), EvalNode(n, k.e, k.regions, inputs, c.w))
    decreases n, 0, 0
  {
    match n.target
    case Step(verb) =>
    case Call(body, scope) => FreshCall(body, scope, id, k, inputs, c);
    case Branch(_, _, _) => FreshBranch(n.target, id, k, First(k.e.u, inputs), c);
    case Iterate(_, _, _, _) => FreshIterate(n.target, id, k, First(k.e.u, inputs), c);
  }

  lemma {:induction false} FreshCall(body: Flow, scope: Option<Scope>, id: NodeIds.NodeId, k: Frame, inputs: Inputs, c: Cfg)
    requires c.h.Never? && Fresh(c.s, OwnerPath(k, id))
    ensures Means(c, RunCall(body, scope, id, k, inputs, c),
                  Closed(k.e, scope, EvalFlow(body, k.e, k.regions, inputs, Opened(k.e, scope, c.w))))
    decreases body, |body.nodes| + 2, 0
  {
    var q := OwnerPath(k, id);
    assert Under(q, q);
    assert c.s.scope - {q} == c.s.scope;
    FreshFlow(body, k.e, NodeIds.Descend(id, "call"), q, k.regions, inputs, Enter(k.e, scope, q, c));
  }

  lemma {:induction false} FreshBranch(t: Target, id: NodeIds.NodeId, k: Frame, v: Value, c: Cfg)
    requires t.Branch? && c.h.Never? && Fresh(c.s, OwnerPath(k, id))
    ensures Means(c, RunBranch(t, id, k, v, c), EvalBranch(t, k.e, k.regions, v, c.w))
    decreases t, 0, 0
  {
    var q := OwnerPath(k, id);
    assert Under(q, q);
    assert c.s.arm - {q} == c.s.arm;
    var (verdict, c1) := Verdict(k.e, t.when, q, v, c);
    assert c1.s == c.s;
    if verdict {
      FreshFlow(t.thenFlow, k.e, NodeIds.Descend(id, "then"), q, k.regions, One(v), c1);
    } else if t.elseFlow.Some? {
      FreshFlow(t.elseFlow.value, k.e, NodeIds.Descend(id, "else"), q, k.regions, One(v), c1);
    }
  }

  lemma {:induction false} FreshIterate(t: Target, id: NodeIds.NodeId, k: Frame, v: Value, c: Cfg)
    requires t.Iterate? && c.h.Never? && Fresh(c.s, OwnerPath(k, id))
    ensures Means(c, RunIterate(t, id, k, v, c),
                  Closed(k.e, t.scope, EvalLoop(t, k.e, k.regions, 0, v, Opened(k.e, t.scope, c.w))))
    decreases t, 0, 0
  {
    var q := OwnerPath(k, id);
    assert Under(q, q);
    assert c.s.scope - {q} == c.s.scope;
    assert c.s.iter - {q} == c.s.iter;
    var c1 := Enter(k.e, t.scope, q, c);
    FreshLoop(t, id, k, 0, v, c1);
    var l := Loop(t, id, k, 0, v, c1);
    assert Passes(t, id, k, IterCursor(0, v, Some(false)), c1) == l;
  }

  lemma {:induction false} FreshLoop(t: Target, id: NodeIds.NodeId, k: Frame, pass: nat, carry: Value, c: Cfg)
    requires t.Iterate? && c.h.Never? && Fresh(c.s, OwnerPath(k, id))
    ensures var l := Loop(t, id, k, pass, carry, c);
      Means(c, Res(l.out, l.c), EvalLoop(t, k.e, k.regions, pass, carry, c.w))
    decreases t.body, |t.body.nodes| + 2, k.e.bound - pass
  {
    var q := PassPath(OwnerPath(k, id), pass);
    FreshBelow(c.s, OwnerPath(k, id), q);
    if t.maxIters.Some? && pass >= t.maxIters.value {
    } else if FastForward(k.regions, c.w.signals) {
    } else if pass < k.e.bound {
      FreshFlow(t.body, k.e, NodeIds.Descend(id, "body"), q, k.regions, One(carry), c);
      var r := EvalFlow(t.body, k.e, k.regions, One(carry), c.w);
      if r.out.Done? {
        var (done, c1) := UntilHolds(k.e, t.until, r.out.value, Cfg(c.s, r.w, Never));
        if !done {
          FreshLoop(t, id, k, pass + 1, r.out.value, c1);
        }
      }
    }
  }
}
