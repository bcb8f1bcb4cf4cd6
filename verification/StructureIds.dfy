/** What a structure says of node ids: runs of flows with equal structures give every step the same
    id, however deep, also where a flow re-enters one above it. */
module StructureIds {
  import opened Wrappers
  import opened NodeIds
  import opened Structures
  import G = FlowGraphs
  import P = StructurePaths

  /** One descent of a run: from which step of the chain, through which boundary of its structure, and
      for which item when the step is a map over items. */
  datatype Hop = Hop(step: nat, boundary: string, item: nat)

  /** The boundary of a map over items in a structure: one body for every item. */
  const ITEMS := "map"

  /** The boundary a run descends through: every item of a map has its own. */
  function RunBoundary(boundary: string, item: nat): string {
    if boundary == ITEMS then "map:" + Digits(item) else boundary
  }

  predicate Descends(g: G.Graph, f: G.Flow, h: Hop) {
    f in g && h.step < |g[f].nodes| && h.boundary in Boundaries(g[f].nodes[h.step].children)
  }

  function Entered(g: G.Graph, f: G.Flow, h: Hop): G.Flow
    requires Descends(g, f, h)
  {
    ChildBy(g[f].nodes[h.step].children, h.boundary)
  }

  /** The context and the keys of the chain a run of f is in after hops; none if there is none. */
  function ChainAt(g: G.Graph, f: G.Flow, context: Context, hops: seq<Hop>): Option<(Context, seq<LocalKey>)>
    decreases |hops|
  {
    if f !in g then None
    else if hops == [] then Some((context, NodeKeys(g[f].nodes)))
    else if !Descends(g, f, hops[0]) then None
    else
      var ids := Ids(context, NodeKeys(g[f].nodes));
      ChainAt(g, Entered(g, f, hops[0]), Descend(ids[hops[0].step], RunBoundary(hops[0].boundary, hops[0].item)), hops[1..])
  }

  /** The node ids of that chain, as the executor computes them. */
  function IdsAt(g: G.Graph, f: G.Flow, hops: seq<Hop>): Option<seq<NodeId>> {
    match ChainAt(g, f, Root, hops)
    case None => None
    case Some((context, keys)) => Some(Ids(context, keys))
  }

  /** The flows a run is in, from the top: no flow twice. */
  ghost predicate Stack(g: G.Graph, flows: seq<G.Flow>) {
    && G.Closed(g)
    && (forall i | 0 <= i < |flows| :: flows[i] in g)
    && (forall i, j | 0 <= i < j < |flows| :: flows[i] != flows[j])
  }

  /** The structure of the flow at depth d, below the flows above it. */
  ghost function OfAt(g: G.Graph, flows: seq<G.Flow>, d: nat): Structure
    requires Stack(g, flows) && d < |flows|
  {
    Of(g, flows[d], flows[..d])
  }

  /** Two runs are in flows of equal structures at every depth. */
  ghost predicate Alike(g: G.Graph, a: seq<G.Flow>, h: G.Graph, b: seq<G.Flow>) {
    && Stack(g, a) && Stack(h, b) && |a| == |b| > 0
    && forall d | 0 <= d < |a| :: OfAt(g, a, d) == OfAt(h, b, d)
  }

  lemma {:induction false} PushStack(g: G.Graph, flows: seq<G.Flow>, f: G.Flow)
    requires Stack(g, flows) && f in g && f !in flows
    ensures Stack(g, flows + [f])
    ensures forall d | 0 <= d < |flows| :: OfAt(g, flows + [f], d) == OfAt(g, flows, d)
    ensures OfAt(g, flows + [f], |flows|) == Of(g, f, flows)
  {
    forall d | 0 <= d <= |flows| ensures (flows + [f])[..d] == flows[..d] {}
    assert flows[..|flows|] == flows;
  }

  lemma PopStack(g: G.Graph, flows: seq<G.Flow>, n: nat)
    requires Stack(g, flows) && n <= |flows|
    ensures Stack(g, flows[..n])
    ensures forall d | 0 <= d < n :: OfAt(g, flows[..n], d) == OfAt(g, flows, d)
  {
    forall d | 0 <= d < n ensures flows[..n][..d] == flows[..d] {}
  }

  function Last<T>(s: seq<T>): T
    requires |s| > 0
  {
    s[|s| - 1]
  }

  /** What the structure of the current flow holds of it and of one descent. */
  lemma StepHolds(g: G.Graph, flows: seq<G.Flow>, h: Hop)
    requires Stack(g, flows) && |flows| > 0
    ensures var s := OfAt(g, flows, |flows| - 1);
      && Locals(s.steps) == NodeKeys(g[Last(flows)].nodes)
      && (Descends(g, Last(flows), h) <==> h.step < |s.steps| && h.boundary in s.steps[h.step].children)
      && (Descends(g, Last(flows), h) ==>
          var child := Entered(g, Last(flows), h);
          && child in g
          && s.steps[h.step].children[h.boundary] ==
             if child in flows then Cycle(IndexOfFlow(flows, child)) else Nested(Of(g, child, flows)))
  {
    var n := |flows| - 1;
    var f, above := flows[n], flows[..n];
    assert flows == above + [f];
    LocalsOf(g, f, above);
    var s := Of(g, f, above);
    if h.step < |s.steps| {
      assert s.steps[h.step] == StepOf(g, f, above, h.step);
      if Descends(g, f, h) {
        ChildInGraph(g, f, h.step, h.boundary);
        assert s.steps[h.step].children[h.boundary] == ChildOf(g, f, above, h.step, h.boundary);
      }
    }
  }

  /** The flows above after one descent: one more, or back up to the one re-entered. */
  ghost function After(g: G.Graph, flows: seq<G.Flow>, h: Hop): seq<G.Flow>
    requires Stack(g, flows) && |flows| > 0 && Descends(g, Last(flows), h)
  {
    var child := Entered(g, Last(flows), h);
    if child in flows then flows[..IndexOfFlow(flows, child) + 1] else flows + [child]
  }

  lemma DescendAlike(g: G.Graph, a: seq<G.Flow>, k: G.Graph, b: seq<G.Flow>, h: Hop)
    requires Alike(g, a, k, b) && Descends(g, Last(a), h)
    ensures Descends(k, Last(b), h)
    ensures var a1, b1 := After(g, a, h), After(k, b, h);
      Alike(g, a1, k, b1) && Last(a1) == Entered(g, Last(a), h) && Last(b1) == Entered(k, Last(b), h)
  {
    StepHolds(g, a, h);
    StepHolds(k, b, h);
    var n := |a| - 1;
    assert OfAt(g, a, n) == OfAt(k, b, n);
    var c, d := Entered(g, Last(a), h), Entered(k, Last(b), h);
    if c in a {
      var i := IndexOfFlow(a, c);
      PopStack(g, a, i + 1);
      PopStack(k, b, i + 1);
    } else {
      PushStack(g, a, c);
      PushStack(k, b, d);
    }
  }

  lemma {:induction false} AlikeRuns(g: G.Graph, a: seq<G.Flow>, k: G.Graph, b: seq<G.Flow>, context: Context, hops: seq<Hop>)
    requires Alike(g, a, k, b)
    ensures ChainAt(g, Last(a), context, hops) == ChainAt(k, Last(b), context, hops)
    decreases |hops|
  {
    assert OfAt(g, a, |a| - 1) == OfAt(k, b, |b| - 1);
    var h := if hops == [] then Hop(0, "", 0) else hops[0];
    StepHolds(g, a, h);
    StepHolds(k, b, h);
    if hops != [] && Descends(g, Last(a), h) {
      DescendAlike(g, a, k, b, h);
      var ids := Ids(context, NodeKeys(g[Last(a)].nodes));
      AlikeRuns(g, After(g, a, h), k, After(k, b, h), Descend(ids[h.step], RunBoundary(h.boundary, h.item)), hops[1..]);
    }
  }

  /** Flows with equal structures give the same ids to the steps of every chain a run can descend
      into, in every map item and through cycles: so cursors saved by one are found by the other. */
  lemma SameStructureSameIds(g: G.Graph, f: G.Flow, k: G.Graph, e: G.Flow, hops: seq<Hop>)
    requires G.Closed(g) && f in g && G.Closed(k) && e in k
    requires Of(g, f, []) == Of(k, e, [])
    ensures IdsAt(g, f, hops) == IdsAt(k, e, hops)
  {
    assert [f][..0] == [] && [e][..0] == [];
    AlikeRuns(g, [f], k, [e], Root, hops);
  }

  // ----- paths and ids -----

  /** The path of a run: that of the structure with the item entered at each level, which counts where
      the level is in a map over items. */
  function InItems(path: P.Path, items: seq<nat>): (run: P.Path)
    requires |items| == |path|
    ensures |run| == |path|
  {
    seq(|path|, i requires 0 <= i < |path| => P.Segment(RunBoundary(path[i].boundary, items[i]), path[i].key))
  }

  /** The node id of the step at a run's path below a chain context. */
  function PathId(context: Context, run: P.Path): NodeId
    requires run != []
    decreases |run|
  {
    var front, last := run[..|run| - 1], run[|run| - 1];
    NodeId(if front == [] then context else Descend(PathId(context, front), last.boundary), last.key.local, last.key.occurrence)
  }

  lemma {:induction false} RunPathInjective(p: P.Path, q: P.Path)
    requires p != [] && q != [] && p[0].boundary == q[0].boundary
    requires PathId(Root, p) == PathId(Root, q)
    ensures p == q
    decreases |p|
  {
    var m, n := |p| - 1, |q| - 1;
    if m > 0 && n > 0 {
      RunPathInjective(p[..m], q[..n]);
    }
    assert p[m] == q[n];
    assert p == p[..m] + [p[m]] && q == q[..n] + [q[n]];
  }

  /** A step descends for its items, or by other boundaries, never both: as a map over items, which has
      one body, and a map over members, which has one for each. */
  ghost predicate ItemsAlone(s: Structure) {
    forall i | 0 <= i < |s.steps| :: ItemsAloneAt(s, i)
  }

  ghost predicate ItemsAloneAt(s: Structure, i: nat)
    requires i < |s.steps|
    decreases s, 0
  {
    var step := s.steps[i];
    && (ITEMS in step.children ==> step.children.Keys == {ITEMS})
    && forall b | b in step.children :: step.children[b].Nested? ==> ItemsAlone(step.children[b].structure)
  }

  /** Two runs' paths are the same only for one path of the structure, and the same items. */
  lemma {:induction false} SameRunPath(s: Structure, b: string, p: P.Path, q: P.Path, items: seq<nat>, others: seq<nat>)
    requires ItemsAlone(s) && P.Find(s, b, p).Some? && P.Find(s, b, q).Some?
    requires |items| == |p| && |others| == |q| && InItems(p, items) == InItems(q, others)
    ensures p == q
    ensures forall i | 0 < i < |p| :: p[i].boundary == ITEMS ==> items[i] == others[i]
    decreases |p|
  {
    assert InItems(p, items)[0] == InItems(q, others)[0];
    var i := P.IndexOfKey(s.steps, p[0].key).value;
    assert ItemsAloneAt(s, i);
    if |p| > 1 {
      var c, d := p[1].boundary, q[1].boundary;
      assert InItems(p, items)[1] == InItems(q, others)[1];
      if c == ITEMS {
        assert d == ITEMS;
        var u, v := "map:" + Digits(items[1]), "map:" + Digits(others[1]);
        assert u[4..] == Digits(items[1]) && v[4..] == Digits(others[1]);
        DigitsInjective(items[1], others[1]);
      }
      assert InItems(p[1..], items[1..]) == InItems(p, items)[1..];
      assert InItems(q[1..], others[1..]) == InItems(q, others)[1..];
      SameRunPath(P.Chained(s.steps[i], c).value, c, p[1..], q[1..], items[1..], others[1..]);
      assert p == [p[0]] + p[1..] && q == [q[0]] + q[1..];
      forall j | 0 < j < |p| && p[j].boundary == ITEMS ensures items[j] == others[j] {
        if j > 1 {
          assert p[1..][j - 1].boundary == ITEMS;
          assert items[1..][j - 1] == others[1..][j - 1];
        }
      }
    }
  }

  /** Steps at different paths of a structure, or in different items on the way, have different ids. */
  lemma PathIdInjective(s: Structure, p: P.Path, q: P.Path, items: seq<nat>, others: seq<nat>)
    requires ItemsAlone(s) && P.Find(s, "", p).Some? && P.Find(s, "", q).Some?
    requires |items| == |p| && |others| == |q|
    requires PathId(Root, InItems(p, items)) == PathId(Root, InItems(q, others))
    ensures p == q
    ensures forall i | 0 < i < |p| :: p[i].boundary == ITEMS ==> items[i] == others[i]
  {
    RunPathInjective(InItems(p, items), InItems(q, others));
    SameRunPath(s, "", p, q, items, others);
  }

  /** The same of a graph's steps. */
  ghost predicate ItemMaps(g: G.Graph) {
    forall f | f in g :: forall i | 0 <= i < |g[f].nodes| ::
      ITEMS in Boundaries(g[f].nodes[i].children) ==> Boundaries(g[f].nodes[i].children) == {ITEMS}
  }

  lemma {:induction false} OfItemsAlone(g: G.Graph, f: G.Flow, above: seq<G.Flow>)
    requires G.Closed(g) && f in g && f !in above && ItemMaps(g)
    ensures ItemsAlone(Of(g, f, above))
    decreases Left(g, above)
  {
    LeftShrinks(g, above, f);
    var s := Of(g, f, above);
    forall i | 0 <= i < |s.steps| ensures ItemsAloneAt(s, i) {
      assert s.steps[i] == StepOf(g, f, above, i);
      assert s.steps[i].children.Keys == Boundaries(g[f].nodes[i].children);
      forall b | b in s.steps[i].children && s.steps[i].children[b].Nested?
        ensures ItemsAlone(s.steps[i].children[b].structure)
      {
        assert s.steps[i].children[b] == ChildOf(g, f, above, i, b);
        ChildInGraph(g, f, i, b);
        OfItemsAlone(g, ChildBy(g[f].nodes[i].children, b), above + [f]);
      }
    }
  }

  lemma {:induction false} PathIdDescends(context: Context, run: P.Path)
    requires |run| > 1
    ensures PathId(context, run) == PathId(Descend(PathId(context, run[..1]), run[1].boundary), run[1..])
    decreases |run|
  {
    var n := |run| - 1;
    assert run[1..][..n - 1] == run[..n][1..];
    if n > 1 {
      PathIdDescends(context, run[..n]);
      assert run[..n][..1] == run[..1];
    }
  }

  /** The descents that lead to the chain of the step at these places, in these items. */
  function HopsTo(places: seq<P.Place>, items: seq<nat>): seq<Hop>
    requires |items| == |places|
    decreases |places|
  {
    if |places| <= 1 then []
    else [Hop(places[0].index, places[1].boundary, items[1])] + HopsTo(places[1..], items[1..])
  }

  lemma InItemsRest(path: P.Path, items: seq<nat>)
    requires |items| == |path| > 0
    ensures InItems(path, items)[1..] == InItems(path[1..], items[1..])
  {}

  /** A path's first step alone. */
  lemma FirstId(g: G.Graph, flows: seq<G.Flow>, b: string, places: seq<P.Place>, items: seq<nat>, context: Context)
    requires Stack(g, flows) && flows != [] && |items| == |places|
    requires P.At(OfAt(g, flows, |flows| - 1), b, places).Some?
    ensures var s := OfAt(g, flows, |flows| - 1);
      var keys := NodeKeys(g[Last(flows)].nodes);
      && s.steps == Of(g, Last(flows), flows[..|flows| - 1]).steps
      && places[0].index < |keys|
      && Ids(context, keys)[places[0].index] == PathId(context, InItems(P.PathTo(s, b, places), items)[..1])
  {
    var s := OfAt(g, flows, |flows| - 1);
    assert s.steps[places[0].index] == StepOf(g, Last(flows), flows[..|flows| - 1], places[0].index);
    assert InItems(P.PathTo(s, b, places), items)[0].key == s.steps[places[0].index].key;
  }

  lemma {:induction false} RunIdIsPathId(g: G.Graph, flows: seq<G.Flow>, b: string, places: seq<P.Place>, items: seq<nat>, context: Context)
    requires Stack(g, flows) && flows != [] && |items| == |places|
    requires P.At(OfAt(g, flows, |flows| - 1), b, places).Some?
    ensures var s := OfAt(g, flows, |flows| - 1);
      var chain := ChainAt(g, Last(flows), context, HopsTo(places, items));
      && chain.Some? && Last(places).index < |chain.value.1|
      && Ids(chain.value.0, chain.value.1)[Last(places).index] == PathId(context, InItems(P.PathTo(s, b, places), items))
    decreases |places|
  {
    var s := OfAt(g, flows, |flows| - 1);
    var run := InItems(P.PathTo(s, b, places), items);
    FirstId(g, flows, b, places, items, context);
    if |places| == 1 {
      assert run == run[..1];
    } else {
      RunIdBelow(g, flows, b, places, items, context);
    }
  }

  lemma ChainBelow(g: G.Graph, f: G.Flow, context: Context, places: seq<P.Place>, items: seq<nat>)
    requires |items| == |places| > 1 && f in g && Descends(g, f, Hop(places[0].index, places[1].boundary, items[1]))
    ensures var h := Hop(places[0].index, places[1].boundary, items[1]);
      ChainAt(g, f, context, HopsTo(places, items)) ==
      ChainAt(g, Entered(g, f, h), Descend(Ids(context, NodeKeys(g[f].nodes))[h.step], RunBoundary(h.boundary, h.item)), HopsTo(places[1..], items[1..]))
  {
    var hops := HopsTo(places, items);
    assert hops[0] == Hop(places[0].index, places[1].boundary, items[1]) && hops[1..] == HopsTo(places[1..], items[1..]);
  }

  /** The chain below a place is that of the flow the run enters there. */
  lemma PlaceBelow(g: G.Graph, flows: seq<G.Flow>, b: string, places: seq<P.Place>, item: nat)
    requires Stack(g, flows) && flows != [] && |places| > 1
    requires P.At(OfAt(g, flows, |flows| - 1), b, places).Some?
    ensures var h := Hop(places[0].index, places[1].boundary, item);
      && Descends(g, Last(flows), h)
      && var child := Entered(g, Last(flows), h);
      && Stack(g, flows + [child])
      && P.At(OfAt(g, flows + [child], |flows|), h.boundary, places[1..]).Some?
      && P.PathTo(OfAt(g, flows, |flows| - 1), b, places)[1..] == P.PathTo(OfAt(g, flows + [child], |flows|), h.boundary, places[1..])
  {
    var h := Hop(places[0].index, places[1].boundary, item);
    StepHolds(g, flows, h);
    PushStack(g, flows, Entered(g, Last(flows), h));
  }

  lemma {:induction false} RunIdBelow(g: G.Graph, flows: seq<G.Flow>, b: string, places: seq<P.Place>, items: seq<nat>, context: Context)
    requires Stack(g, flows) && flows != [] && |items| == |places| > 1
    requires P.At(OfAt(g, flows, |flows| - 1), b, places).Some?
    ensures var s := OfAt(g, flows, |flows| - 1);
      var chain := ChainAt(g, Last(flows), context, HopsTo(places, items));
      && chain.Some? && Last(places).index < |chain.value.1|
      && Ids(chain.value.0, chain.value.1)[Last(places).index] == PathId(context, InItems(P.PathTo(s, b, places), items))
    decreases |places|, 0
  {
    var path := P.PathTo(OfAt(g, flows, |flows| - 1), b, places);
    var run := InItems(path, items);
    var h := Hop(places[0].index, places[1].boundary, items[1]);
    var inner := Descend(PathId(context, run[..1]), run[1].boundary);
    PlaceBelow(g, flows, b, places, items[1]);
    var child := Entered(g, Last(flows), h);
    assert ChainAt(g, Last(flows), context, HopsTo(places, items)) == ChainAt(g, child, inner, HopsTo(places[1..], items[1..])) by {
      FirstId(g, flows, b, places, items, context);
      ChainBelow(g, Last(flows), context, places, items);
      P.PathBoundaries(OfAt(g, flows, |flows| - 1), b, places);
      assert RunBoundary(h.boundary, h.item) == run[1].boundary;
    }
    assert PathId(context, run) == PathId(inner, InItems(path[1..], items[1..])) by {
      InItemsRest(path, items);
      PathIdDescends(context, run);
    }
    RunIdIsPathId(g, flows + [child], h.boundary, places[1..], items[1..], inner);
  }

  /** The id a run gives a step is the id of its path in the flow's structure and of the items on the
      way: a step that a diff keeps has one id in both flows, in each item. */
  lemma StepIdIsPathId(g: G.Graph, f: G.Flow, places: seq<P.Place>, items: seq<nat>)
    requires G.Closed(g) && f in g && P.At(Of(g, f, []), "", places).Some? && |items| == |places|
    ensures var ids := IdsAt(g, f, HopsTo(places, items));
      && ids.Some? && Last(places).index < |ids.value|
      && ids.value[Last(places).index] == PathId(Root, InItems(P.PathTo(Of(g, f, []), "", places), items))
  {
    assert [f][..0] == [];
    RunIdIsPathId(g, [f], "", places, items, Root);
  }

  /** So across the tree no two steps share an id, nor one step in two items of a map around it. */
  lemma StepIdsDistinct(g: G.Graph, f: G.Flow, p: seq<P.Place>, q: seq<P.Place>, items: seq<nat>, others: seq<nat>)
    requires G.Closed(g) && f in g && ItemMaps(g)
    requires P.At(Of(g, f, []), "", p).Some? && P.At(Of(g, f, []), "", q).Some? && |items| == |p| && |others| == |q|
    requires var a, b := IdsAt(g, f, HopsTo(p, items)), IdsAt(g, f, HopsTo(q, others));
      a.Some? && b.Some? && Last(p).index < |a.value| && Last(q).index < |b.value| && a.value[Last(p).index] == b.value[Last(q).index]
    ensures p == q
    ensures forall i | 0 < i < |p| :: p[i].boundary == ITEMS ==> items[i] == others[i]
  {
    var s := Of(g, f, []);
    StepIdIsPathId(g, f, p, items);
    StepIdIsPathId(g, f, q, others);
    OfCanonical(g, f, []);
    OfItemsAlone(g, f, []);
    P.PathFindsStep(s, "", p);
    P.PathFindsStep(s, "", q);
    PathIdInjective(s, P.PathTo(s, "", p), P.PathTo(s, "", q), items, others);
    P.PathsUnique(s, "", p, q);
    P.PathBoundaries(s, "", p);
  }
}
