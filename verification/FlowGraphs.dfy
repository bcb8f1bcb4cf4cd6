/** The composition graph of a run: flows refer to flows, and may refer back to one above them.

    Traversals of the graph, the check on its shortcut regions, and what that check means for the
    regions a position of the run is in.
 */
module FlowGraphs {
  import opened Wrappers
  import opened NodeIds

  /** A flow object. */
  type Flow(==, !new)

  /** An asyncio event. */
  type Signal(==, !new)

  datatype Child = Child(boundary: string, flow: Flow)

  /** A chain step and the flows it descends into. */
  datatype Node = Node(key: LocalKey, children: seq<Child>)

  datatype Shortcut = Shortcut(signal: string, drain: bool)

  datatype Def = Def(nodes: seq<Node>, shortcut: Option<Shortcut>, signals: map<string, Signal>)

  type Graph = map<Flow, Def>

  ghost predicate Closed(g: Graph) {
    forall f | f in g :: forall c | c in ChildFlows(g[f].nodes) :: c in g
  }

  // ----- descents -----

  /** One descent: through which step of a chain, into which of its flows. */
  datatype Edge = Edge(node: nat, child: nat)

  predicate Has(d: Def, e: Edge) {
    e.node < |d.nodes| && e.child < |d.nodes[e.node].children|
  }

  function Into(d: Def, e: Edge): Flow
    requires Has(d, e)
  {
    d.nodes[e.node].children[e.child].flow
  }

  /** The flow a run that descends along walk from root is in. */
  function FlowAt(g: Graph, root: Flow, walk: seq<Edge>): Option<Flow> {
    if walk == [] then Some(root)
    else
      var e := walk[|walk| - 1];
      match FlowAt(g, root, walk[..|walk| - 1])
      case None => None
      case Some(f) => if f in g && Has(g[f], e) then Some(Into(g[f], e)) else None
  }

  ghost predicate Reaches(g: Graph, root: Flow, f: Flow) {
    exists walk :: FlowAt(g, root, walk) == Some(f)
  }

  /** f is under root: by at least one descent, so root itself only around a cycle. */
  ghost predicate Under(g: Graph, root: Flow, f: Flow) {
    exists walk :: walk != [] && FlowAt(g, root, walk) == Some(f)
  }

  lemma Descend(g: Graph, root: Flow, walk: seq<Edge>, f: Flow, e: Edge)
    requires FlowAt(g, root, walk) == Some(f) && f in g && Has(g[f], e)
    ensures FlowAt(g, root, walk + [e]) == Some(Into(g[f], e))
  {
    assert (walk + [e])[..|walk|] == walk;
  }

  // ----- a flow's children -----

  function FlowsOf(children: seq<Child>): (flows: seq<Flow>)
    ensures |flows| == |children|
    ensures forall i :: 0 <= i < |children| ==> flows[i] == children[i].flow
  {
    seq(|children|, i requires 0 <= i < |children| => children[i].flow)
  }

  /** The flows a chain's steps descend into, in order. */
  function ChildFlows(nodes: seq<Node>): seq<Flow> {
    if nodes == [] then []
    else ChildFlows(nodes[..|nodes| - 1]) + FlowsOf(nodes[|nodes| - 1].children)
  }

  lemma {:induction false} ChildFlowsHasEdge(nodes: seq<Node>, e: Edge)
    requires e.node < |nodes| && e.child < |nodes[e.node].children|
    ensures nodes[e.node].children[e.child].flow in ChildFlows(nodes)
  {
    var last := nodes[|nodes| - 1].children;
    if e.node < |nodes| - 1 {
      ChildFlowsHasEdge(nodes[..|nodes| - 1], e);
    } else {
      assert FlowsOf(last)[e.child] == last[e.child].flow;
    }
  }

  lemma {:induction false} ChildFlowsAreEdges(nodes: seq<Node>, f: Flow) returns (e: Edge)
    requires f in ChildFlows(nodes)
    ensures e.node < |nodes| && e.child < |nodes[e.node].children| && nodes[e.node].children[e.child].flow == f
  {
    if f in ChildFlows(nodes[..|nodes| - 1]) {
      e := ChildFlowsAreEdges(nodes[..|nodes| - 1], f);
    } else {
      var i :| 0 <= i < |nodes[|nodes| - 1].children| && FlowsOf(nodes[|nodes| - 1].children)[i] == f;
      e := Edge(|nodes| - 1, i);
    }
  }

  // ----- traversals -----

  /** Whatever the flows of set s refer to is in s or in rest. */
  ghost predicate ClosedUpTo(g: Graph, s: set<Flow>, rest: seq<Flow>) {
    forall f | f in s && f in g :: forall c | c in ChildFlows(g[f].nodes) :: c in s || c in rest
  }

  lemma {:induction false} ClosedHoldsReachable(g: Graph, s: set<Flow>, root: Flow, walk: seq<Edge>)
    requires root in s && ClosedUpTo(g, s, []) && FlowAt(g, root, walk).Some?
    ensures FlowAt(g, root, walk).value in s
  {
    if walk != [] {
      var front, e := walk[..|walk| - 1], walk[|walk| - 1];
      ClosedHoldsReachable(g, s, root, front);
      ChildFlowsHasEdge(g[FlowAt(g, root, front).value].nodes, e);
    }
  }

  lemma ChildReached(g: Graph, root: Flow, f: Flow, c: Flow)
    requires Reaches(g, root, f) && f in g && c in ChildFlows(g[f].nodes)
    ensures Under(g, root, c) && Reaches(g, root, c)
  {
    var walk :| FlowAt(g, root, walk) == Some(f);
    var e := ChildFlowsAreEdges(g[f].nodes, c);
    Descend(g, root, walk, f, e);
  }

  lemma Unseen(g: Graph, seen: set<Flow>, f: Flow)
    requires f in g && f !in seen
    ensures |g.Keys - (seen + {f})| < |g.Keys - seen|
  {
    assert g.Keys - (seen + {f}) == (g.Keys - seen) - {f};
  }

  /** Popping a flow that was seen leaves nothing out. */
  lemma PopSeen(g: Graph, s: set<Flow>, stack: seq<Flow>)
    requires stack != [] && stack[|stack| - 1] in s && ClosedUpTo(g, s, stack)
    ensures ClosedUpTo(g, s, stack[..|stack| - 1])
  {
    assert stack == stack[..|stack| - 1] + [stack[|stack| - 1]];
  }

  /** Popping a new flow and pushing the flows it refers to leaves nothing out. */
  lemma PopNew(g: Graph, s: set<Flow>, stack: seq<Flow>, f: Flow)
    requires stack != [] && stack[|stack| - 1] == f && f in g && ClosedUpTo(g, s, stack)
    ensures ClosedUpTo(g, s + {f}, stack[..|stack| - 1] + ChildFlows(g[f].nodes))
  {
    assert stack == stack[..|stack| - 1] + [f];
  }

  ghost predicate AllReached(g: Graph, root: Flow, flows: seq<Flow>) {
    forall f | f in flows :: f in g && Reaches(g, root, f)
  }

  ghost predicate AllUnder(g: Graph, root: Flow, flows: seq<Flow>) {
    forall f | f in flows :: f in g && Under(g, root, f)
  }

  lemma ChildrenReached(g: Graph, root: Flow, f: Flow)
    requires Closed(g) && f in g && Reaches(g, root, f)
    ensures AllReached(g, root, ChildFlows(g[f].nodes)) && AllUnder(g, root, ChildFlows(g[f].nodes))
  {
    forall c | c in ChildFlows(g[f].nodes) ensures c in g && Under(g, root, c) && Reaches(g, root, c) {
      ChildReached(g, root, f, c);
    }
  }

  /** Every distinct flow of root's composition tree, root first. */
  method IterFlows(g: Graph, root: Flow) returns (flows: seq<Flow>)
    requires Closed(g) && root in g
    ensures flows != [] && flows[0] == root
    ensures forall i, j :: 0 <= i < j < |flows| ==> flows[i] != flows[j]
    ensures forall f :: f in flows <==> Reaches(g, root, f)
    ensures AllReached(g, root, flows)
  {
    flows := [];
    var seen: set<Flow> := {};
    var stack := [root];
    assert FlowAt(g, root, []) == Some(root);
    while stack != []
      invariant forall f :: f in seen <==> f in flows
      invariant if flows == [] then stack == [root] else flows[0] == root
      invariant forall i, j :: 0 <= i < j < |flows| ==> flows[i] != flows[j]
      invariant AllReached(g, root, flows) && AllReached(g, root, stack)
      invariant ClosedUpTo(g, seen, stack)
      decreases |g.Keys - seen|, |stack|
    {
      var flow := stack[|stack| - 1];
      if flow in seen {
        PopSeen(g, seen, stack);
        stack := stack[..|stack| - 1];
      } else {
        PopNew(g, seen, stack, flow);
        Unseen(g, seen, flow);
        ChildrenReached(g, root, flow);
        seen, flows := seen + {flow}, flows + [flow];
        stack := stack[..|stack| - 1] + ChildFlows(g[flow].nodes);
      }
    }
    assert root in seen;
    EverythingSeen(g, seen, root);
  }

  lemma EverythingSeen(g: Graph, seen: set<Flow>, root: Flow)
    requires root in seen && ClosedUpTo(g, seen, [])
    ensures forall f | Reaches(g, root, f) :: f in seen
  {
    forall f | Reaches(g, root, f) ensures f in seen {
      var walk :| FlowAt(g, root, walk) == Some(f);
      ClosedHoldsReachable(g, seen, root, walk);
    }
  }

  predicate Declares(d: Def, signal: string) {
    d.shortcut.Some? && d.shortcut.value.signal == signal
  }

  /** A walk that descends at least once descends into a child first. */
  lemma {:induction false} UnderAChild(g: Graph, s: set<Flow>, root: Flow, walk: seq<Edge>)
    requires root in g && walk != [] && FlowAt(g, root, walk).Some?
    requires forall c | c in ChildFlows(g[root].nodes) :: c in s
    requires ClosedUpTo(g, s, [])
    ensures FlowAt(g, root, walk).value in s
  {
    var front, e := walk[..|walk| - 1], walk[|walk| - 1];
    var f := FlowAt(g, root, front).value;
    ChildFlowsHasEdge(g[f].nodes, e);
    if front != [] {
      UnderAChild(g, s, root, front);
    }
  }

  lemma EverythingUnderSeen(g: Graph, seen: set<Flow>, root: Flow)
    requires root in g && (forall c | c in ChildFlows(g[root].nodes) :: c in seen) && ClosedUpTo(g, seen, [])
    ensures forall f | Under(g, root, f) :: f in seen
  {
    forall f | Under(g, root, f) ensures f in seen {
      var walk :| walk != [] && FlowAt(g, root, walk) == Some(f);
      UnderAChild(g, seen, root, walk);
    }
  }

  lemma UnderIsReached(g: Graph, root: Flow, f: Flow)
    requires Under(g, root, f)
    ensures Reaches(g, root, f)
  {}

  ghost predicate Pending(children: seq<Flow>, seen: set<Flow>, stack: seq<Flow>) {
    forall c | c in children :: c in seen || c in stack
  }

  lemma StillPending(children: seq<Flow>, seen: set<Flow>, stack: seq<Flow>, more: seq<Flow>)
    requires stack != [] && Pending(children, seen, stack)
    ensures Pending(children, seen + {stack[|stack| - 1]}, stack[..|stack| - 1] + more)
  {
    assert stack == stack[..|stack| - 1] + [stack[|stack| - 1]];
  }

  /** Where the search for a region is: what it saw declares none, what is left holds the rest. */
  ghost predicate Searched(g: Graph, region: Flow, signal: string, seen: set<Flow>, stack: seq<Flow>)
    requires region in g
  {
    && (forall f | f in seen :: f in g && !Declares(g[f], signal))
    && AllUnder(g, region, stack)
    && Pending(ChildFlows(g[region].nodes), seen, stack)
    && ClosedUpTo(g, seen, stack)
  }

  lemma SearchSkips(g: Graph, region: Flow, signal: string, seen: set<Flow>, stack: seq<Flow>)
    requires region in g && Searched(g, region, signal, seen, stack) && stack != [] && stack[|stack| - 1] in seen
    ensures Searched(g, region, signal, seen, stack[..|stack| - 1])
  {
    var front, child := stack[..|stack| - 1], stack[|stack| - 1];
    PopSeen(g, seen, stack);
    StillPending(ChildFlows(g[region].nodes), seen, stack, []);
    assert seen + {child} == seen && front + [] == front;
  }

  lemma SearchVisits(g: Graph, region: Flow, signal: string, seen: set<Flow>, stack: seq<Flow>, child: Flow)
    requires Closed(g) && region in g && Searched(g, region, signal, seen, stack)
    requires stack != [] && stack[|stack| - 1] == child && child in g && !Declares(g[child], signal)
    ensures Searched(g, region, signal, seen + {child}, stack[..|stack| - 1] + ChildFlows(g[child].nodes))
  {
    PopNew(g, seen, stack, child);
    UnderIsReached(g, region, child);
    ChildrenReached(g, region, child);
    StillPending(ChildFlows(g[region].nodes), seen, stack, ChildFlows(g[child].nodes));
  }

  /** A flow under region that declares a shortcut on signal; none exactly when there is none,
      region itself around a cycle included. */
  method InnerRegion(g: Graph, region: Flow, signal: string) returns (inner: Option<Flow>)
    requires Closed(g) && region in g
    ensures inner.Some? ==> inner.value in g && Under(g, region, inner.value) && Declares(g[inner.value], signal)
    ensures inner.None? ==> forall f | f in g && Under(g, region, f) :: !Declares(g[f], signal)
  {
    var seen: set<Flow> := {};
    var stack := ChildFlows(g[region].nodes);
    assert FlowAt(g, region, []) == Some(region);
    ChildrenReached(g, region, region);
    while stack != []
      invariant Searched(g, region, signal, seen, stack)
      decreases |g.Keys - seen|, |stack|
    {
      var child := stack[|stack| - 1];
      if child in seen {
        SearchSkips(g, region, signal, seen, stack);
        stack := stack[..|stack| - 1];
      } else {
        if Declares(g[child], signal) {
          return Some(child);
        }
        SearchVisits(g, region, signal, seen, stack, child);
        Unseen(g, seen, child);
        seen := seen + {child};
        stack := stack[..|stack| - 1] + ChildFlows(g[child].nodes);
      }
    }
    inner := None;
    EverythingUnderSeen(g, seen, region);
  }

  // ----- the check on shortcut regions -----

  /** What check_shortcuts asks of one flow of root's tree. */
  ghost predicate FlowAccepted(g: Graph, root: Flow, f: Flow)
    requires f in g && root in g
  {
    && (f != root ==> g[f].signals == map[])
    && (g[f].shortcut.Some? ==>
      && g[f].shortcut.value.signal in g[root].signals
      && forall h | h in g && Under(g, f, h) :: !Declares(g[h], g[f].shortcut.value.signal))
  }

  ghost predicate Accepted(g: Graph, root: Flow)
    requires root in g
  {
    forall f | f in g && Reaches(g, root, f) :: FlowAccepted(g, root, f)
  }

  /** A tree is accepted exactly when signals are declared on its root alone, every shortcut names one of
      them, and no flow under a shortcut's declares one on the same signal. */
  lemma AcceptedExactly(g: Graph, root: Flow)
    requires Closed(g) && root in g
    ensures Accepted(g, root) <==>
      && (forall f | f in g && Reaches(g, root, f) && f != root :: g[f].signals == map[])
      && (forall f | f in g && Reaches(g, root, f) && g[f].shortcut.Some? :: g[f].shortcut.value.signal in g[root].signals)
      && (forall f, h | f in g && h in g && Reaches(g, root, f) && Under(g, f, h) ::
            !(g[f].shortcut.Some? && g[h].shortcut.Some? && g[f].shortcut.value.signal == g[h].shortcut.value.signal))
  {
    if Accepted(g, root) {
      forall f | f in g && Reaches(g, root, f) ensures FlowAccepted(g, root, f) {}
    }
  }

  /** The first flow found at fault, if any. */
  method CheckShortcuts(g: Graph, root: Flow) returns (fault: Option<Flow>)
    requires Closed(g) && root in g
    ensures fault.None? <==> Accepted(g, root)
    ensures fault.Some? ==> fault.value in g && Reaches(g, root, fault.value) && !FlowAccepted(g, root, fault.value)
  {
    var flows := IterFlows(g, root);
    for i := 0 to |flows|
      invariant forall j :: 0 <= j < i ==> FlowAccepted(g, root, flows[j])
    {
      var flow := flows[i];
      if flow != root && g[flow].signals != map[] {
        return Some(flow);
      }
      if g[flow].shortcut.Some? {
        var signal := g[flow].shortcut.value.signal;
        if signal !in g[root].signals {
          return Some(flow);
        }
        var inner := InnerRegion(g, flow, signal);
        if inner.Some? {
          return Some(flow);
        }
      }
    }
    fault := None;
  }

  // ----- the regions a position is in -----

  /** One run of a region; left when a started map item under it has left it behind. */
  datatype Region = Region(signal: Signal, drain: bool, left: bool)

  predicate FastForwards(regions: seq<Region>, on: set<Signal>) {
    exists r | r in regions :: !r.left && r.signal in on
  }

  predicate Drains(regions: seq<Region>, on: set<Signal>) {
    exists r | r in regions :: r.left && r.signal in on
  }

  /** The regions a map item that starts runs under. */
  function LeaveDrains(regions: seq<Region>): (r: seq<Region>)
    ensures |r| == |regions|
  {
    seq(|regions|, i requires 0 <= i < |regions| => if regions[i].drain then regions[i].(left := true) else regions[i])
  }

  function RegionRun(g: Graph, root: Flow, f: Flow): seq<Region>
    requires root in g && f in g
  {
    match g[f].shortcut
    case None => []
    case Some(s) => if s.signal in g[root].signals then [Region(g[root].signals[s.signal], s.drain, false)] else []
  }

  /** The regions a run that descended along walk is in, outermost first. */
  function RegionsAt(g: Graph, root: Flow, walk: seq<Edge>): seq<Region>
    requires Closed(g) && root in g && FlowAt(g, root, walk).Some?
  {
    StaysInGraph(g, root, walk);
    if walk == [] then RegionRun(g, root, root)
    else
      var front, e := walk[..|walk| - 1], walk[|walk| - 1];
      var above := RegionsAt(g, root, front);
      var f := FlowAt(g, root, front).value;
      (if g[f].nodes[e.node].key.kind == "map" then LeaveDrains(above) else above) + RegionRun(g, root, FlowAt(g, root, walk).value)
  }

  lemma {:induction false} StaysInGraph(g: Graph, root: Flow, walk: seq<Edge>)
    requires Closed(g) && root in g && FlowAt(g, root, walk).Some?
    ensures FlowAt(g, root, walk).value in g
  {
    if walk != [] {
      var front, e := walk[..|walk| - 1], walk[|walk| - 1];
      StaysInGraph(g, root, front);
      ChildFlowsHasEdge(g[FlowAt(g, root, front).value].nodes, e);
    }
  }

  lemma {:induction false} PrefixesLead(g: Graph, root: Flow, walk: seq<Edge>, n: nat)
    requires Closed(g) && root in g && FlowAt(g, root, walk).Some? && n <= |walk|
    ensures FlowAt(g, root, walk[..n]).Some? && FlowAt(g, root, walk[..n]).value in g
    decreases |walk|
  {
    if n < |walk| {
      assert walk[..|walk| - 1][..n] == walk[..n];
      PrefixesLead(g, root, walk[..|walk| - 1], n);
    } else {
      assert walk[..n] == walk;
      StaysInGraph(g, root, walk);
    }
  }

  /** The walk enters a map item at step n. */
  predicate EntersItem(g: Graph, root: Flow, walk: seq<Edge>, n: nat)
    requires n < |walk|
  {
    var f := FlowAt(g, root, walk[..n]);
    f.Some? && f.value in g && walk[n].node < |g[f.value].nodes| && g[f.value].nodes[walk[n].node].key.kind == "map"
  }

  /** The walk enters a map item at or below the flow it is in after n descents. */
  ghost predicate InItem(g: Graph, root: Flow, walk: seq<Edge>, n: nat) {
    exists m | n <= m < |walk| :: EntersItem(g, root, walk, m)
  }

  /** r is the region that the flow reached after n descents makes: left exactly when it drains and
      an item was entered under it. */
  ghost predicate Makes(g: Graph, root: Flow, walk: seq<Edge>, n: nat, r: Region)
    requires Closed(g) && root in g && FlowAt(g, root, walk).Some?
  {
    n <= |walk| &&
    var f := FlowAt(g, root, walk[..n]);
    && f.Some? && f.value in g && g[f.value].shortcut.Some?
    && var s := g[f.value].shortcut.value;
    && s.signal in g[root].signals
    && r == Region(g[root].signals[s.signal], s.drain, s.drain && InItem(g, root, walk, n))
  }

  lemma InItemExtends(g: Graph, root: Flow, walk: seq<Edge>, n: nat)
    requires n < |walk|
    ensures InItem(g, root, walk, n) <==>
      InItem(g, root, walk[..|walk| - 1], n) || EntersItem(g, root, walk, |walk| - 1)
  {
    var front := walk[..|walk| - 1];
    forall m | n <= m < |front| ensures EntersItem(g, root, walk, m) <==> EntersItem(g, root, front, m) {
      assert walk[..m] == front[..m];
    }
  }

  /** The region made after n descents, one descent further. */
  function Deeper(r: Region, item: bool): Region { if item && r.drain then r.(left := true) else r }

  lemma {:induction false} MakesDeeper(g: Graph, root: Flow, walk: seq<Edge>, n: nat, above: Region)
    requires Closed(g) && root in g && FlowAt(g, root, walk).Some? && n < |walk|
    requires Makes(g, root, walk[..|walk| - 1], n, above)
    ensures Makes(g, root, walk, n, Deeper(above, EntersItem(g, root, walk, |walk| - 1)))
  {
    assert walk[..|walk| - 1][..n] == walk[..n];
    InItemExtends(g, root, walk, n);
  }

  lemma MadeAbove(g: Graph, root: Flow, walk: seq<Edge>, n: nat, r: Region) returns (above: Region)
    requires Closed(g) && root in g && FlowAt(g, root, walk).Some? && n < |walk| && Makes(g, root, walk, n, r)
    ensures Makes(g, root, walk[..|walk| - 1], n, above) && r == Deeper(above, EntersItem(g, root, walk, |walk| - 1))
  {
    var front := walk[..|walk| - 1];
    assert front[..n] == walk[..n];
    InItemExtends(g, root, walk, n);
    above := r.(left := r.drain && InItem(g, root, front, n));
  }

  lemma LeftFrom(regions: seq<Region>, r: Region) returns (above: Region)
    requires r in LeaveDrains(regions)
    ensures above in regions && r == Deeper(above, true)
  {
    var i :| 0 <= i < |regions| && LeaveDrains(regions)[i] == r;
    above := regions[i];
  }

  lemma LeftHas(regions: seq<Region>, above: Region)
    requires above in regions
    ensures Deeper(above, true) in LeaveDrains(regions)
  {
    var i :| 0 <= i < |regions| && regions[i] == above;
    assert LeaveDrains(regions)[i] == Deeper(above, true);
  }

  lemma {:induction false} RegionIsMade(g: Graph, root: Flow, walk: seq<Edge>, r: Region) returns (n: nat)
    requires Closed(g) && root in g && FlowAt(g, root, walk).Some? && r in RegionsAt(g, root, walk)
    ensures Makes(g, root, walk, n, r)
    decreases |walk|
  {
    StaysInGraph(g, root, walk);
    OwnRegion(g, root, walk, r);
    n := |walk|;
    if r !in RegionRun(g, root, FlowAt(g, root, walk).value) {
      var front := walk[..|walk| - 1];
      var above := RegionsAt(g, root, front);
      var item := EntersItem(g, root, walk, |front|);
      var a := r;
      if item {
        a := LeftFrom(above, r);
      }
      n := RegionIsMade(g, root, front, a);
      MakesDeeper(g, root, walk, n, a);
    }
  }

  lemma {:induction false} MadeIsRegion(g: Graph, root: Flow, walk: seq<Edge>, n: nat, r: Region)
    requires Closed(g) && root in g && FlowAt(g, root, walk).Some? && Makes(g, root, walk, n, r)
    ensures r in RegionsAt(g, root, walk)
    decreases |walk|
  {
    StaysInGraph(g, root, walk);
    OwnRegion(g, root, walk, r);
    if n < |walk| {
      var front := walk[..|walk| - 1];
      var item := EntersItem(g, root, walk, |front|);
      var a := MadeAbove(g, root, walk, n, r);
      MadeIsRegion(g, root, front, n, a);
      if item {
        LeftHas(RegionsAt(g, root, front), a);
      }
    }
  }

  lemma {:induction false} OwnRegion(g: Graph, root: Flow, walk: seq<Edge>, r: Region)
    requires Closed(g) && root in g && FlowAt(g, root, walk).Some? && FlowAt(g, root, walk).value in g
    ensures r in RegionRun(g, root, FlowAt(g, root, walk).value) <==> Makes(g, root, walk, |walk|, r)
  {
    assert walk[..|walk|] == walk;
  }

  lemma {:induction false} WalksCompose(g: Graph, root: Flow, a: seq<Edge>, b: seq<Edge>)
    requires FlowAt(g, root, a).Some?
    ensures FlowAt(g, root, a + b) == FlowAt(g, FlowAt(g, root, a).value, b)
    decreases |b|
  {
    if b == [] {
      assert a + b == a;
    } else {
      assert (a + b)[..|a + b| - 1] == a + b[..|b| - 1];
      WalksCompose(g, root, a, b[..|b| - 1]);
    }
  }

  /** In an accepted tree no two flows on the way to a position make regions on one signal. */
  lemma OneRegionPerSignal(g: Graph, root: Flow, walk: seq<Edge>, m: nat, n: nat)
    requires Closed(g) && root in g && FlowAt(g, root, walk).Some? && Accepted(g, root) && m < n <= |walk|
    ensures var a, b := FlowAt(g, root, walk[..m]), FlowAt(g, root, walk[..n]);
      a.Some? && b.Some? && a.value in g && b.value in g
      && (g[a.value].shortcut.Some? && g[b.value].shortcut.Some? ==>
          g[a.value].shortcut.value.signal != g[b.value].shortcut.value.signal)
  {
    PrefixesLead(g, root, walk, m);
    PrefixesLead(g, root, walk, n);
    var a, b := FlowAt(g, root, walk[..m]).value, FlowAt(g, root, walk[..n]).value;
    assert walk[..n] == walk[..m] + walk[m..n];
    WalksCompose(g, root, walk[..m], walk[m..n]);
    assert Under(g, a, b);
    assert FlowAccepted(g, root, a);
  }

  ghost predicate DistinctSignals(d: Def) {
    forall s, t | s in d.signals && t in d.signals :: d.signals[s] == d.signals[t] ==> s == t
  }

  lemma SignalsApart(g: Graph, root: Flow, walk: seq<Edge>, m: nat, n: nat, q: Region, r: Region)
    requires Closed(g) && root in g && FlowAt(g, root, walk).Some? && Accepted(g, root) && DistinctSignals(g[root])
    requires Makes(g, root, walk, m, q) && Makes(g, root, walk, n, r) && q.signal == r.signal
    ensures m == n && q == r
  {
    if m < n {
      OneRegionPerSignal(g, root, walk, m, n);
    } else if n < m {
      OneRegionPerSignal(g, root, walk, n, m);
    }
  }

  /** No position inside a started map item, however deep, fast-forwards because of a drain region
      above the item: setting its signal changes nothing there but that the position drains. Every
      other region still cuts it short. */
  lemma {:induction false} DrainIsolation(g: Graph, root: Flow, walk: seq<Edge>, n: nat, r: Region, on: set<Signal>)
    requires Closed(g) && root in g && FlowAt(g, root, walk).Some?
    requires Accepted(g, root) && DistinctSignals(g[root])
    requires Makes(g, root, walk, n, r) && r.drain && InItem(g, root, walk, n)
    ensures var regions := RegionsAt(g, root, walk);
      && (FastForwards(regions, on + {r.signal}) <==> FastForwards(regions, on - {r.signal}))
      && Drains(regions, on + {r.signal})
  {
    var regions := RegionsAt(g, root, walk);
    MadeIsRegion(g, root, walk, n, r);
    assert r.left;
    forall q | q in regions && q.signal == r.signal ensures q == r {
      var m := RegionIsMade(g, root, walk, q);
      SignalsApart(g, root, walk, m, n, q, r);
    }
  }

  /** A position fast-forwards exactly when a flow on the way to it is cut, and does not drain or no
      map item was started under it. */
  lemma {:induction false} FastForwardsExactly(g: Graph, root: Flow, walk: seq<Edge>, on: set<Signal>)
    requires Closed(g) && root in g && FlowAt(g, root, walk).Some?
    ensures FastForwards(RegionsAt(g, root, walk), on) <==>
      exists n, r :: Makes(g, root, walk, n, r) && r.signal in on && !(r.drain && InItem(g, root, walk, n))
  {
    var regions := RegionsAt(g, root, walk);
    if FastForwards(regions, on) {
      var r :| r in regions && !r.left && r.signal in on;
      var n := RegionIsMade(g, root, walk, r);
    }
    if n: nat, r :| Makes(g, root, walk, n, r) && r.signal in on && !(r.drain && InItem(g, root, walk, n)) {
      MadeIsRegion(g, root, walk, n, r);
    }
  }

  /** It drains exactly when a draining flow on the way to it is cut and a map item was started under
      that flow; with no signal set it neither drains nor fast-forwards. */
  lemma {:induction false} DrainsExactly(g: Graph, root: Flow, walk: seq<Edge>, on: set<Signal>)
    requires Closed(g) && root in g && FlowAt(g, root, walk).Some?
    ensures Drains(RegionsAt(g, root, walk), on) <==>
      exists n, r :: Makes(g, root, walk, n, r) && r.signal in on && r.drain && InItem(g, root, walk, n)
    ensures !Drains(RegionsAt(g, root, walk), {}) && !FastForwards(RegionsAt(g, root, walk), {})
  {
    var regions := RegionsAt(g, root, walk);
    if Drains(regions, on) {
      var r :| r in regions && r.left && r.signal in on;
      var n := RegionIsMade(g, root, walk, r);
    }
    if n: nat, r :| Makes(g, root, walk, n, r) && r.signal in on && r.drain && InItem(g, root, walk, n) {
      MadeIsRegion(g, root, walk, n, r);
    }
  }

  /** In an accepted tree every shortcut on the way to a position makes a region of the run's signal of
      that name. */
  lemma {:induction false} ShortcutMakesRegion(g: Graph, root: Flow, walk: seq<Edge>, n: nat)
    requires Closed(g) && root in g && FlowAt(g, root, walk).Some? && Accepted(g, root) && n <= |walk|
    ensures var f := FlowAt(g, root, walk[..n]);
      && f.Some? && f.value in g
      && (g[f.value].shortcut.Some? ==>
            var s := g[f.value].shortcut.value;
            && s.signal in g[root].signals
            && Region(g[root].signals[s.signal], s.drain, s.drain && InItem(g, root, walk, n)) in RegionsAt(g, root, walk))
  {
    PrefixesLead(g, root, walk, n);
    var f := FlowAt(g, root, walk[..n]).value;
    assert FlowAccepted(g, root, f);
    if g[f].shortcut.Some? {
      var s := g[f].shortcut.value;
      MadeIsRegion(g, root, walk, n, Region(g[root].signals[s.signal], s.drain, s.drain && InItem(g, root, walk, n)));
    }
  }
}
