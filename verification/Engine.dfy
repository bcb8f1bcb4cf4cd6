/** The flow engine: one run, or the part of one from a checkpoint to its next halt.

    Every function takes a configuration (the saved entries not taken yet, the world, the halt) and
    yields an outcome with the configuration it ends in. Of a halted structure that configuration
    holds, besides the entries nothing took, the cursor and scope of every structure the halt
    stopped: what the run's halt checkpoint captures.
 */
module Engine {
  import opened Wrappers
  import opened NodeIds
  import opened FlowModel

  datatype Cfg = Cfg(s: Saved, w: World, h: Halt)

  datatype Res = Res(out: Outcome, c: Cfg)

  /** User code, and a bound on the passes of any iterate: an iterate that would start pass
      `bound` ends the evaluation as Diverged. */
  datatype Env = Env(u: User, bound: nat)

  /** What stays fixed while a chain is walked. */
  datatype Frame = Frame(e: Env, context: Context, path: Path, regions: seq<Region>, input: Inputs)

  function OwnerPath(k: Frame, id: NodeId): Path { k.path + [N(id)] }

  // ----- where entries may appear -----

  /** A path of interest: facts about where entries appear are used at marked paths only. */
  ghost predicate Marked(p: Path) { true }

  ghost predicate GrowsAtPath(s: Saved, t: Saved, q: Path, p: Path) {
    Under(q, p) || (
      && (p in t.chain ==> p in s.chain)
      && (p in t.iter ==> p in s.iter)
      && (p in t.arm ==> p in s.arm)
      && (p in t.scope ==> p in s.scope))
  }

  /** Everything a run under q leaves that was not there before is at or below q. */
  ghost predicate GrowsAt(s: Saved, t: Saved, q: Path) {
    forall p: Path {:trigger Marked(p)} :: Marked(p) ==> GrowsAtPath(s, t, q, p)
  }

  /** As GrowsAt, and a chain at p leaves nothing but its own cursor at p itself. */
  ghost predicate GrowsIn(s: Saved, t: Saved, p: Path) {
    && GrowsAt(s, t, p)
    && (p in t.iter ==> p in s.iter)
    && (p in t.arm ==> p in s.arm)
    && (p in t.scope ==> p in s.scope)
  }

  lemma UnderTransitive(a: Path, b: Path, c: Path)
    requires Under(a, b) && Under(b, c)
    ensures Under(a, c)
  {
    assert c[..|a|] == c[..|b|][..|a|];
  }

  // ----- one call -----

  function CallUser(e: Env, callee: Callee, input: Inputs, c: Cfg): (r: (Value, Cfg))
    ensures r.1.s == c.s
    ensures |r.1.w.scopes| == |c.w.scopes|
    ensures c.h.Never? ==> r.1.h.Never?
  {
    var (v, w) := Invoke(e.u, callee, input, c.w);
    (v, Cfg(c.s, w, c.h.Tick()))
  }

  /** The input of step `index`: the chain's own for the head, else the previous result, projected. */
  function StepInputs(e: Env, index: nat, n: Node, prev: Value, input: Inputs, c: Cfg): (r: (Inputs, Cfg))
    ensures r.1 == c.(w := c.w.(log := r.1.w.log))
  {
    if index == 0 then (input, c)
    else match n.project
      case None => (One(prev), c)
      case Some(p) =>
        (One(e.u.project(p, prev)), c.(w := c.w.(log := c.w.log + [Event(Project(p), One(prev))])))
  }

  // ----- scopes -----

  function Parents(scopes: seq<Value>): seq<Value> {
    if |scopes| == 0 then [] else scopes[..|scopes| - 1]
  }

  function Current(u: User, scopes: seq<Value>): Value {
    if |scopes| == 0 then u.none else scopes[|scopes| - 1]
  }

  /** Enter a block at q: its scope comes back from the checkout, else the projection makes it. */
  function Enter(e: Env, scope: Option<Scope>, q: Path, c: Cfg): (r: Cfg)
    ensures r.s.chain == c.s.chain && r.s.iter == c.s.iter && r.s.arm == c.s.arm
    ensures scope.Some? ==> r.s.scope == c.s.scope - {q}
    ensures scope.None? ==> r == c
    ensures |r.w.scopes| == |c.w.scopes| + if scope.Some? then 1 else 0
    ensures c.h.Never? ==> r.h.Never?
  {
    match scope
    case None => c
    case Some(sc) =>
      if q in c.s.scope then
        Cfg(c.s.(scope := c.s.scope - {q}), c.w.(scopes := c.w.scopes + [c.s.scope[q]]), c.h)
      else
        var (v, c1) := CallUser(e, OpenScope(sc.projection), One(Current(e.u, c.w.scopes)), c);
        Cfg(c1.s.(scope := c1.s.scope - {q}), c1.w.(scopes := c1.w.scopes + [v]), c1.h)
  }

  /** Leave a block that completed: merge its scope into its parent's, then drop it. */
  function Leave(e: Env, scope: Option<Scope>, c: Cfg): (r: Cfg)
    ensures r.s == c.s
    ensures |c.w.scopes| > 0 || scope.None? ==> |r.w.scopes| == |c.w.scopes| - if scope.Some? then 1 else 0
    ensures c.h.Never? ==> r.h.Never?
  {
    match scope
    case None => c
    case Some(sc) =>
      var c1 := match sc.merge
        case None => c
        case Some(m) =>
          var child := Current(e.u, c.w.scopes);
          var parent := Current(e.u, Parents(c.w.scopes));
          CallUser(e, Merge(m), Inputs([parent, child], map[]), c).1;
      Cfg(c1.s, c1.w.(scopes := Parents(c1.w.scopes)), c1.h)
  }

  /** Leave a block the halt stopped: its scope stays registered at q. */
  function Suspend(e: Env, scope: Option<Scope>, q: Path, c: Cfg): (r: Cfg)
    ensures r.s.chain == c.s.chain && r.s.iter == c.s.iter && r.s.arm == c.s.arm
    ensures |c.w.scopes| > 0 || scope.None? ==> |r.w.scopes| == |c.w.scopes| - if scope.Some? then 1 else 0
    ensures c.h.Never? ==> r.h.Never?
  {
    match scope
    case None => c
    case Some(sc) =>
      Cfg(c.s.(scope := c.s.scope[q := Current(e.u, c.w.scopes)]), c.w.(scopes := Parents(c.w.scopes)), c.h)
  }

  // ----- chains -----

  /** Where a checkout continues a chain. */
  datatype At = At(index: nat, cursor: ChainCursor)

  ghost predicate Fits(c: Cfg, r: Res, p: Path) {
    && GrowsIn(c.s, r.c.s, p)
    && |r.c.w.scopes| == |c.w.scopes|
    && (r.out.Halted? ==> p in r.c.s.chain)
    && (c.h.Never? ==> r.c.h.Never? && !r.out.Halted?)
  }

  function RunFlow(f: Flow, e: Env, context: Context, path: Path, regions: seq<Region>, input: Inputs, c: Cfg): (r: Res)
    ensures Fits(c, r, path)
    decreases f, |f.nodes| + 1, 0
  {
    if |f.nodes| == 0 then Res(Failed(EmptyFlow), c)
    else
      var k := Frame(e, context, path, regions + RegionOf(f), input);
      if path !in c.s.chain then Walk(f, k, None, 0, None, c)
      else
        var cursor := c.s.chain[path];
        var c1 := c.(s := c.s.(chain := c.s.chain - {path}));
        var ids := Ids(context, Keys(f));
        if cursor.step !in ids then Res(Failed(LostStep(path)), c1)
        else
          var i := IndexOf(ids, cursor.step);
          Walk(f, k, Some(At(i, cursor)), i, if cursor.Pending? then Some(cursor.prev) else None, c1)
  }

  /** True when the step a checkout saved at `at` had started, so it runs again. */
  predicate Rerun(at: Option<At>) { at.Some? && at.value.cursor.Running? }

  /** Walk the chain from `index` on; `last` is its last completed result. */
  function Walk(f: Flow, k: Frame, at: Option<At>, index: nat, last: Option<Value>, c: Cfg): (r: Res)
    requires index <= |f.nodes|
    ensures Fits(c, r, k.path)
    decreases f, |f.nodes| - index, 0
  {
    if index == |f.nodes| then Res(Done(PassedThrough(k.e.u, last, k.input)), c)
    else
      var n := f.nodes[index];
      if !Rerun(at) && !n.conclude && FastForward(k.regions, c.w.signals) then
        Walk(f, k, None, index + 1, last, c)
      else
        var (inputs, c1) := InputsAt(k, at, index, n, last, c);
        WalkStep(f, k, index, inputs, c1)
  }

  /** The input the step the walk is at gets: the one its cursor saved, unless that was deferred. */
  function InputsAt(k: Frame, at: Option<At>, index: nat, n: Node, last: Option<Value>, c: Cfg): (r: (Inputs, Cfg))
    ensures r.1 == c.(w := c.w.(log := r.1.w.log))
  {
    if at.None? then
      StepInputs(k.e, index, n, PassedThrough(k.e.u, last, k.input), k.input, c)
    else if at.value.cursor.Pending? && at.value.cursor.deferred && !FastForward(k.regions, c.w.signals) then
      StepInputs(k.e, index, n, at.value.cursor.prev, k.input, c)
    else (at.value.cursor.inputs, c)
  }

  /** Run step `index` with `inputs`, observe the halt, and go on. */
  function WalkStep(f: Flow, k: Frame, index: nat, inputs: Inputs, c: Cfg): (r: Res)
    requires index < |f.nodes|
    ensures Fits(c, r, k.path)
    decreases f, |f.nodes| - index - 1, 2
  {
    var id := IdAt(k.context, Keys(f), index);
    var r := RunNode(f.nodes[index], id, k, inputs, c);
    NodeFits(k, id, c, r);
    AfterStep(f, k, index, inputs, r)
  }

  /** Stop at a step the halt interrupted, stop past one that completed, or walk on. */
  function AfterStep(f: Flow, k: Frame, index: nat, inputs: Inputs, r: Res): (r': Res)
    requires index < |f.nodes|
    ensures GrowsIn(r.c.s, r'.c.s, k.path)
    ensures |r'.c.w.scopes| == |r.c.w.scopes|
    ensures r'.out.Halted? ==> k.path in r'.c.s.chain
    ensures r.c.h.Never? && !r.out.Halted? ==> r'.c.h.Never? && !r'.out.Halted?
    decreases f, |f.nodes| - index - 1, 1
  {
    match r.out
    case Failed(_) => r
    case Diverged => r
    case Halted(inVerb) => Register(r.c, k.path, Running(IdAt(k.context, Keys(f), index), inputs), inVerb)
    case Done(v) =>
      if r.c.h.Signaled() && index + 1 < |f.nodes| then MoveTo(f, k, index + 1, v, r.c)
      else Walk(f, k, None, index + 1, Some(v), r.c)
  }

  function Register(c: Cfg, path: Path, cursor: ChainCursor, inVerb: bool): Res {
    Res(Halted(inVerb), c.(s := c.s.(chain := c.s.chain[path := cursor])))
  }

  /** The cursor of a chain that stopped past a completed result: at step `index`, which has not
      started, with the input it will get, or deferred when a cut would skip the step. */
  predicate StopsAt(f: Flow, k: Frame, index: nat, prev: Value, c: Cfg, cursor: ChainCursor)
    requires index < |f.nodes|
  {
    && cursor.Pending? && cursor.step == IdAt(k.context, Keys(f), index) && cursor.prev == prev
    && (cursor.deferred <==> !f.nodes[index].conclude && FastForward(k.regions, c.w.signals))
    && cursor.inputs == if cursor.deferred then One(prev) else StepInputs(k.e, index, f.nodes[index], prev, k.input, c).0
  }

  /** Stop before step `index`, which follows the completed result prev. */
  function MoveTo(f: Flow, k: Frame, index: nat, prev: Value, c: Cfg): (r: Res)
    requires index < |f.nodes|
    ensures r.out == Halted(false) && k.path in r.c.s.chain
    ensures StopsAt(f, k, index, prev, c, r.c.s.chain[k.path])
    ensures r.c.s == c.s.(chain := c.s.chain[k.path := r.c.s.chain[k.path]])
    ensures GrowsIn(c.s, r.c.s, k.path) && |r.c.w.scopes| == |c.w.scopes|
  {
    var n := f.nodes[index];
    var id := IdAt(k.context, Keys(f), index);
    if !n.conclude && FastForward(k.regions, c.w.signals) then
      Register(c, k.path, Pending(id, One(prev), prev, true), false)
    else
      var (inputs, c1) := StepInputs(k.e, index, n, prev, k.input, c);
      Register(c1, k.path, Pending(id, inputs, prev, false), false)
  }

  // ----- nodes -----

  ghost predicate NodeOk(c: Cfg, r: Res, q: Path) {
    && GrowsAt(c.s, r.c.s, q)
    && |r.c.w.scopes| == |c.w.scopes|
    && (c.h.Never? ==> r.c.h.Never? && !r.out.Halted?)
  }

  lemma NodeFits(k: Frame, id: NodeId, c: Cfg, r: Res)
    requires NodeOk(c, r, OwnerPath(k, id))
    ensures GrowsIn(c.s, r.c.s, k.path)
    ensures |r.c.w.scopes| == |c.w.scopes|
    ensures k.path !in c.s.chain ==> k.path !in r.c.s.chain
  {
    assert Marked(k.path);
    forall p: Path | Marked(p)
      ensures GrowsAtPath(c.s, r.c.s, k.path, p)
    {
      if Under(OwnerPath(k, id), p) {
        UnderTransitive(k.path, OwnerPath(k, id), p);
      }
    }
  }

  function RunNode(n: Node, id: NodeId, k: Frame, inputs: Inputs, c: Cfg): (r: Res)
    ensures NodeOk(c, r, OwnerPath(k, id))
    decreases n, 0, 0
  {
    match n.target
    case Step(verb) => RunVerb(k.e, verb, inputs, c)
    case Call(body, scope) => RunCall(body, scope, id, k, inputs, c)
    case Branch(when, thenFlow, elseFlow) => RunBranch(n.target, id, k, First(k.e.u, inputs), c)
    case Iterate(body, until, maxIters, scope) => RunIterate(n.target, id, k, First(k.e.u, inputs), c)
  }

  function RunVerb(e: Env, verb: nat, inputs: Inputs, c: Cfg): (r: Res)
    ensures r.c.s == c.s && |r.c.w.scopes| == |c.w.scopes|
    ensures c.h.Never? ==> r.c.h.Never? && r.out.Done?
  {
    if c.h.Tick().Signaled() && c.h.raises then Res(Halted(true), c.(h := c.h.Tick()))
    else
      var (v, c1) := CallUser(e, Verb(verb), inputs, c);
      Res(Done(v), c1)
  }

  function RunCall(body: Flow, scope: Option<Scope>, id: NodeId, k: Frame, inputs: Inputs, c: Cfg): (r: Res)
    ensures NodeOk(c, r, OwnerPath(k, id))
    decreases body, |body.nodes| + 2, 0
  {
    var q := OwnerPath(k, id);
    AfterCall(k.e, scope, q,
      RunFlow(body, k.e, Descend(id, "call"), q, k.regions, inputs, Enter(k.e, scope, q, c)))
  }

  function AfterCall(e: Env, scope: Option<Scope>, q: Path, r: Res): Res {
    match r.out
    case Done(v) => Res(r.out, Leave(e, scope, r.c))
    case _ => Res(r.out, Suspend(e, scope, q, r.c))
  }

  function RunBranch(t: Target, id: NodeId, k: Frame, v: Value, c: Cfg): (r: Res)
    requires t.Branch?
    ensures NodeOk(c, r, OwnerPath(k, id))
    decreases t, 0, 0
  {
    var q := OwnerPath(k, id);
    var (verdict, c1) := Verdict(k.e, t.when, q, v, c);
    if verdict then AfterArm(q, true, RunFlow(t.thenFlow, k.e, Descend(id, "then"), q, k.regions, One(v), c1))
    else if t.elseFlow.None? then Res(Done(v), c1)
    else AfterArm(q, false, RunFlow(t.elseFlow.value, k.e, Descend(id, "else"), q, k.regions, One(v), c1))
  }

  /** The arm a checkout saved at this branch, else when's verdict. */
  function Verdict(e: Env, when: nat, q: Path, v: Value, c: Cfg): (r: (bool, Cfg))
    ensures r.1.s == c.s.(arm := c.s.arm - {q}) && |r.1.w.scopes| == |c.w.scopes|
    ensures c.h.Never? ==> r.1.h.Never?
  {
    if q in c.s.arm then (c.s.arm[q], c.(s := c.s.(arm := c.s.arm - {q})))
    else
      var (x, c1) := CallUser(e, When(when), One(v), c);
      (e.u.truthy(x), c1.(s := c1.s.(arm := c1.s.arm - {q})))
  }

  function AfterArm(q: Path, verdict: bool, r: Res): Res {
    if r.out.Halted? then Res(r.out, r.c.(s := r.c.s.(arm := r.c.s.arm[q := verdict]))) else r
  }

  function RunIterate(t: Target, id: NodeId, k: Frame, v: Value, c: Cfg): (r: Res)
    requires t.Iterate?
    ensures NodeOk(c, r, OwnerPath(k, id))
    decreases t, 0, 0
  {
    var q := OwnerPath(k, id);
    var (at, c1) := TakePosition(q, v, c);
    AfterPasses(k.e, t.scope, q, Passes(t, id, k, at, Enter(k.e, t.scope, q, c1)))
  }

  function AfterPasses(e: Env, scope: Option<Scope>, q: Path, l: LoopRes): Res {
    match l.out
    case Done(_) => Res(l.out, Leave(e, scope, l.c))
    case _ => Res(l.out, KeepPosition(q, l.pass, l.carry, Suspend(e, scope, q, l.c)))
  }

  /** The pass, carried value and verdict a checkout saved at q, else those a fresh iterate has. */
  function TakePosition(q: Path, v: Value, c: Cfg): (IterCursor, Cfg) {
    (if q in c.s.iter then c.s.iter[q] else IterCursor(0, v, Some(false)),
     c.(s := c.s.(iter := c.s.iter - {q})))
  }

  function KeepPosition(q: Path, pass: nat, carry: Value, c: Cfg): Cfg {
    c.(s := c.s.(iter := c.s.iter[q := IterCursor(pass, carry, Some(false))]))
  }

  /** The passes from a cursor on; a verdict that was not recorded is asked for first. */
  function Passes(t: Target, id: NodeId, k: Frame, at: IterCursor, c: Cfg): (l: LoopRes)
    requires t.Iterate?
    ensures LoopOk(c, l, OwnerPath(k, id))
    decreases t.body, |t.body.nodes| + 2, k.e.bound + 1, 0
  {
    var (done, c1) := if at.done.None? then UntilHolds(k.e, t.until, at.carry, c) else (at.done.value, c);
    if done then LoopRes(Done(at.carry), at.pass, at.carry, c1)
    else Loop(t, id, k, at.pass, at.carry, c1)
  }

  function UntilHolds(e: Env, until: Option<nat>, carry: Value, c: Cfg): (r: (bool, Cfg))
    ensures r.1.s == c.s && |r.1.w.scopes| == |c.w.scopes|
    ensures c.h.Never? ==> r.1.h.Never?
  {
    match until
    case None => (false, c)
    case Some(u) =>
      var (x, c1) := CallUser(e, Until(u), One(carry), c);
      (e.u.truthy(x), c1)
  }

  /** How a loop ends, with the pass and the carried value its cursor is at. */
  datatype LoopRes = LoopRes(out: Outcome, pass: nat, carry: Value, c: Cfg)

  function PassPath(q: Path, pass: nat): Path { q + [P(pass)] }

  ghost predicate LoopOk(c: Cfg, l: LoopRes, q: Path) {
    && GrowsIn(c.s, l.c.s, q)
    && |l.c.w.scopes| == |c.w.scopes|
    && (c.h.Never? ==> l.c.h.Never? && !l.out.Halted?)
  }

  lemma PassFits(q: Path, pass: nat, s: Saved, t: Saved)
    requires GrowsIn(s, t, PassPath(q, pass))
    ensures GrowsIn(s, t, q)
    ensures q !in s.chain ==> q !in t.chain
  {
    assert Marked(q);
    forall p: Path | Marked(p)
      ensures GrowsAtPath(s, t, q, p)
    {
      if Under(PassPath(q, pass), p) {
        UnderTransitive(q, PassPath(q, pass), p);
      }
    }
  }

  function Loop(t: Target, id: NodeId, k: Frame, pass: nat, carry: Value, c: Cfg): (l: LoopRes)
    requires t.Iterate?
    ensures LoopOk(c, l, OwnerPath(k, id))
    decreases t.body, |t.body.nodes| + 2, k.e.bound - pass, 0
  {
    var q := OwnerPath(k, id);
    if t.maxIters.Some? && pass >= t.maxIters.value then LoopRes(Done(carry), pass, carry, c)
    else if c.h.Signaled() then LoopRes(Halted(false), pass, carry, c)
    else if ShortcutEnds(k, q, pass, c) then LoopRes(Done(carry), pass, carry, c)
    else if pass >= k.e.bound then LoopRes(Diverged, pass, carry, c)
    else
      var r := RunFlow(t.body, k.e, Descend(id, "body"), PassPath(q, pass), k.regions, One(carry), c);
      PassFits(q, pass, c.s, r.c.s);
      AfterPass(t, id, k, pass, carry, r)
  }

  /** True when the iterate fast-forwards and the pass had not started. */
  predicate ShortcutEnds(k: Frame, q: Path, pass: nat, c: Cfg) {
    FastForward(k.regions, c.w.signals) && !c.s.HoldsUnder(PassPath(q, pass))
  }

  /** Go on from how the body of `pass` ended. */
  function AfterPass(t: Target, id: NodeId, k: Frame, pass: nat, carry: Value, r: Res): (l: LoopRes)
    requires t.Iterate? && pass < k.e.bound
    ensures GrowsIn(r.c.s, l.c.s, OwnerPath(k, id))
    ensures |l.c.w.scopes| == |r.c.w.scopes|
    ensures r.c.h.Never? && !r.out.Halted? ==> l.c.h.Never? && !l.out.Halted?
    decreases t.body, |t.body.nodes| + 2, k.e.bound - pass - 1, 1
  {
    match r.out
    case Done(v) =>
      var (done, c1) := UntilHolds(k.e, t.until, v, r.c);
      if done then LoopRes(Done(v), pass + 1, v, c1)
      else Loop(t, id, k, pass + 1, v, c1)
    case _ => LoopRes(r.out, pass, carry, r.c)
  }
}
