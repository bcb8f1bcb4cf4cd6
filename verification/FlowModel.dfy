/** The composition tree a flow is, the code it calls into, and what a checkpoint keeps of a run. */
module FlowModel {
  import opened Wrappers
  import opened NodeIds

  /** Any Python value: a step's input or result, a scope's payload. */
  type Value(==, !new)

  /** Arguments of one call. */
  datatype Inputs = Inputs(args: seq<Value>, kwargs: map<string, Value>)

  /** The user code a flow names. */
  datatype Callee =
    | Verb(verb: nat)
    | When(when: nat)
    | Until(until: nat)
    | Project(project: nat)
    | OpenScope(projection: nat)
    | Merge(merge: nat)

  /** What one call does: its result, the payload it leaves in the scope at each depth, and the
      signals that were set while it ran. */
  datatype Effect = Effect(result: Value, payload: nat -> Value, signals: set<string>)

  /** The user code, as deterministic functions of its input and of the scopes it can reach; a
      step's project= is a function of the value alone. */
  datatype User = User(
    call: (Callee, Inputs, seq<Value>) -> Effect,
    project: (nat, Value) -> Value,
    truthy: Value -> bool,
    none: Value)

  // ----- the tree -----

  datatype Flow = Flow(nodes: seq<Node>, shortcut: Option<Shortcut>)

  datatype Shortcut = Shortcut(signal: string, drain: bool)

  datatype Node = Node(key: LocalKey, target: Target, project: Option<nat>, conclude: bool)

  /** A state= projection, with its merge= when it has one. */
  datatype Scope = Scope(projection: nat, merge: Option<nat>)

  datatype Target =
    | Step(verb: nat)
    | Call(body: Flow, scope: Option<Scope>)
    | Branch(when: nat, thenFlow: Flow, elseFlow: Option<Flow>)
    | Iterate(body: Flow, until: Option<nat>, maxIters: Option<nat>, scope: Option<Scope>)

  function Keys(f: Flow): (keys: seq<LocalKey>)
    ensures |keys| == |f.nodes|
  {
    seq(|f.nodes|, i requires 0 <= i < |f.nodes| => f.nodes[i].key)
  }

  // ----- regions -----

  /** One run of a region; left when a started map item under it has left it behind. */
  datatype Region = Region(signal: string, drain: bool, left: bool)

  function RegionOf(f: Flow): seq<Region> {
    match f.shortcut
    case None => []
    case Some(s) => [Region(s.signal, s.drain, false)]
  }

  predicate FastForward(regions: seq<Region>, signals: set<string>) {
    exists r | r in regions :: !r.left && r.signal in signals
  }

  // ----- positions -----

  /** One segment of a snapshot path: a step, or a pass of the iterate above it. */
  datatype Segment = N(id: NodeId) | P(pass: nat)

  type Path = seq<Segment>

  predicate Under(prefix: Path, path: Path) {
    |prefix| <= |path| && path[..|prefix|] == prefix
  }

  /** A chain's cursor: the step it is at with that step's input. Pending marks a step the chain
      stopped before, prev being the completed result it follows; deferred marks an input that was
      not computed because the step would be skipped. */
  datatype ChainCursor =
    | Running(step: NodeId, inputs: Inputs)
    | Pending(step: NodeId, inputs: Inputs, prev: Value, deferred: bool)

  /** An iterate's cursor: its pass, the value carried into it, until's verdict on that value
      (None: not checked). */
  datatype IterCursor = IterCursor(pass: nat, carry: Value, done: Option<bool>)

  /** Cursors and child scopes by path: what a snapshot holds of a run besides its root scope. */
  datatype Saved = Saved(
    chain: map<Path, ChainCursor>,
    iter: map<Path, IterCursor>,
    arm: map<Path, bool>,
    scope: map<Path, Value>)
  {
    /** True when an entry nothing has taken is at or below prefix. */
    predicate HoldsUnder(prefix: Path) {
      exists p | p in chain.Keys + iter.Keys + arm.Keys + scope.Keys :: Under(prefix, p)
    }

    /** What a capture keeps: these untaken entries and the live ones over them. */
    function With(live: Saved): Saved {
      Saved(chain + live.chain, iter + live.iter, arm + live.arm, scope + live.scope)
    }
  }

  const NOTHING := Saved(map[], map[], map[], map[])

  // ----- a run -----

  /** One call into user code. */
  datatype Event = Event(callee: Callee, input: Inputs)

  /** The scopes from the root down to the current one, the signals that are set, and every call
      into user code that completed. */
  datatype World = World(scopes: seq<Value>, signals: set<string>, log: seq<Event>)

  /** The run's halt: never set, or set during the left-th call from here (already set when left is
      0). raises: a verb that sees it set raises Interrupted instead of completing. */
  datatype Halt = Never | In(left: nat, raises: bool)
  {
    predicate Signaled() { In? && left == 0 }

    function Tick(): Halt {
      if In? && left > 0 then In(left - 1, raises) else this
    }
  }

  /** How a structure ends. Halted: inVerb when a verb that raised Interrupted stopped it, else at a
      boundary it stopped before. Diverged: an iterate reached the pass bound of the evaluation. */
  datatype Outcome =
    | Done(value: Value)
    | Halted(inVerb: bool)
    | Failed(error: Failure)
    | Diverged

  datatype Failure = EmptyFlow | LostStep(path: Path)

  function Invoke(u: User, callee: Callee, input: Inputs, w: World): (r: (Value, World))
    ensures |r.1.scopes| == |w.scopes|
    ensures w.signals <= r.1.signals
    ensures r.1.log == w.log + [Event(callee, input)]
  {
    var e := u.call(callee, input, w.scopes);
    (e.result, World(seq(|w.scopes|, i requires 0 <= i < |w.scopes| => e.payload(i)),
                     w.signals + e.signals,
                     w.log + [Event(callee, input)]))
  }

  /** A chain's last completed result, else its input when that is one positional value. */
  function PassedThrough(u: User, last: Option<Value>, input: Inputs): Value {
    match last
    case Some(v) => v
    case None => if |input.args| == 1 && |input.kwargs| == 0 then input.args[0] else u.none
  }

  /** The value a control-flow node works on: its first positional. */
  function First(u: User, input: Inputs): Value {
    if |input.args| > 0 then input.args[0] else u.none
  }

  function One(v: Value): Inputs { Inputs([v], map[]) }
}
