/** The structure of a flow: its static composition tree, as every commit records it. */
module Structures {
  import opened Wrappers
  import opened NodeIds
  import G = FlowGraphs

  /** A step's identity in its chain. */
  datatype StepKey = StepKey(local: LocalKey, occurrence: nat)

  datatype Structure = Structure(steps: seq<Step>)

  datatype Step = Step(key: StepKey, children: map<string, Child>)

  /** The chain a step descends into by a boundary, or a flow above it entered again, by its depth. */
  datatype Child = Nested(structure: Structure) | Cycle(depth: int)

  function Locals(steps: seq<Step>): (keys: seq<LocalKey>)
    ensures |keys| == |steps|
  {
    seq(|steps|, i requires 0 <= i < |steps| => steps[i].key.local)
  }

  /** Every step's occurrence counts the earlier steps of its chain with its kind and target. */
  predicate Canonical(s: Structure)
  {
    forall i | 0 <= i < |s.steps| :: CanonicalAt(s, i)
  }

  predicate CanonicalAt(s: Structure, i: nat)
    requires i < |s.steps|
    decreases s, 0
  {
    var step := s.steps[i];
    && step.key.occurrence == Earlier(Locals(s.steps), i, step.key.local)
    && forall b | b in step.children :: step.children[b].Nested? ==> Canonical(step.children[b].structure)
  }

  // ----- extraction from a flow -----

  function NodeKeys(nodes: seq<G.Node>): (keys: seq<LocalKey>)
    ensures |keys| == |nodes|
  {
    seq(|nodes|, i requires 0 <= i < |nodes| => nodes[i].key)
  }

  function Boundaries(children: seq<G.Child>): set<string> { set c | c in children :: c.boundary }

  /** The flow a step descends into by boundary b: of equal names the last, as in a dict. */
  function ChildBy(children: seq<G.Child>, b: string): (f: G.Flow)
    requires b in Boundaries(children)
    ensures exists c :: c in children && c.boundary == b && c.flow == f
  {
    var last := children[|children| - 1];
    if last.boundary == b then last.flow else ChildBy(children[..|children| - 1], b)
  }

  function IndexOfFlow(flows: seq<G.Flow>, f: G.Flow): (i: nat)
    requires f in flows
    ensures i < |flows| && flows[i] == f && f !in flows[..i]
  {
    if flows[0] == f then 0 else IndexOfFlow(flows[1..], f) + 1
  }

  /** The flows of the graph not above the current one: what bounds the descent. */
  function Left(g: G.Graph, above: seq<G.Flow>): nat {
    |g.Keys - set a | a in above|
  }

  lemma LeftShrinks(g: G.Graph, above: seq<G.Flow>, f: G.Flow)
    requires f in g && f !in above
    ensures Left(g, above + [f]) < Left(g, above)
  {
    var s := set a | a in above;
    assert (set a | a in above + [f]) == s + {f};
    assert g.Keys - (s + {f}) == (g.Keys - s) - {f};
  }

  lemma ChildInGraph(g: G.Graph, f: G.Flow, i: nat, b: string)
    requires G.Closed(g) && f in g && i < |g[f].nodes| && b in Boundaries(g[f].nodes[i].children)
    ensures ChildBy(g[f].nodes[i].children, b) in g
  {
    var children := g[f].nodes[i].children;
    var c :| c in children && c.boundary == b && c.flow == ChildBy(children, b);
    var j :| 0 <= j < |children| && children[j] == c;
    G.ChildFlowsHasEdge(g[f].nodes, G.Edge(i, j));
  }

  /** f's structure; above are the flows on the way down to it. It ends on any finite graph, cyclic or
      not: every descent adds a flow to those above. */
  function Of(g: G.Graph, f: G.Flow, above: seq<G.Flow>): (s: Structure)
    requires G.Closed(g) && f in g && f !in above
    ensures |s.steps| == |g[f].nodes|
    decreases Left(g, above), 0
  {
    LeftShrinks(g, above, f);
    Structure(seq(|g[f].nodes|, i requires 0 <= i < |g[f].nodes| => StepOf(g, f, above, i)))
  }

  function StepOf(g: G.Graph, f: G.Flow, above: seq<G.Flow>, i: nat): Step
    requires G.Closed(g) && f in g && f !in above && i < |g[f].nodes|
    decreases Left(g, above + [f]), 2
  {
    var nodes := g[f].nodes;
    Step(StepKey(nodes[i].key, Earlier(NodeKeys(nodes), i, nodes[i].key)),
         map b | b in Boundaries(nodes[i].children) :: ChildOf(g, f, above, i, b))
  }

  function ChildOf(g: G.Graph, f: G.Flow, above: seq<G.Flow>, i: nat, b: string): Child
    requires G.Closed(g) && f in g && f !in above && i < |g[f].nodes| && b in Boundaries(g[f].nodes[i].children)
    decreases Left(g, above + [f]), 1
  {
    ChildInGraph(g, f, i, b);
    var child := ChildBy(g[f].nodes[i].children, b);
    var inner := above + [f];
    if child in inner then Cycle(IndexOfFlow(inner, child)) else Nested(Of(g, child, inner))
  }

  lemma LocalsOf(g: G.Graph, f: G.Flow, above: seq<G.Flow>)
    requires G.Closed(g) && f in g && f !in above
    ensures Locals(Of(g, f, above).steps) == NodeKeys(g[f].nodes)
  {
    forall i | 0 <= i < |g[f].nodes| ensures Of(g, f, above).steps[i] == StepOf(g, f, above, i) {}
  }

  lemma {:induction false} OfCanonical(g: G.Graph, f: G.Flow, above: seq<G.Flow>)
    requires G.Closed(g) && f in g && f !in above
    ensures Canonical(Of(g, f, above))
    decreases Left(g, above)
  {
    LocalsOf(g, f, above);
    LeftShrinks(g, above, f);
    var s := Of(g, f, above);
    forall i | 0 <= i < |s.steps| ensures CanonicalAt(s, i) {
      assert s.steps[i] == StepOf(g, f, above, i);
      forall b | b in s.steps[i].children && s.steps[i].children[b].Nested?
        ensures Canonical(s.steps[i].children[b].structure)
      {
        assert s.steps[i].children[b] == ChildOf(g, f, above, i, b);
        ChildInGraph(g, f, i, b);
        OfCanonical(g, ChildBy(g[f].nodes[i].children, b), above + [f]);
      }
    }
  }

  lemma {:induction false} LastBoundary(children: seq<G.Child>, j: nat)
    requires j < |children| && forall k | j < k < |children| :: children[k].boundary != children[j].boundary
    ensures children[j].boundary in Boundaries(children) && ChildBy(children, children[j].boundary) == children[j].flow
  {
    assert children[j] in children;
    if j + 1 < |children| {
      LastBoundary(children[..|children| - 1], j);
    }
  }

  /** A step's child by a boundary is the flow it descends into by it, in full, or, when that flow is on
      the way down already, how far from the root it is on that way. */
  lemma {:induction false} ExtractedChild(g: G.Graph, f: G.Flow, above: seq<G.Flow>, i: nat, j: nat)
    requires G.Closed(g) && f in g && f !in above && i < |g[f].nodes| && j < |g[f].nodes[i].children|
    requires var all := g[f].nodes[i].children; forall k | j < k < |all| :: all[k].boundary != all[j].boundary
    ensures var c := g[f].nodes[i].children[j];
      var children := Of(g, f, above).steps[i].children;
      && c.flow in g && c.boundary in children
      && match children[c.boundary]
         case Cycle(depth) => 0 <= depth < |above + [f]| && (above + [f])[depth] == c.flow
         case Nested(s) => c.flow !in above + [f] && s == Of(g, c.flow, above + [f])
  {
    var all := g[f].nodes[i].children;
    LastBoundary(all, j);
    ChildInGraph(g, f, i, all[j].boundary);
    assert Of(g, f, above).steps[i] == StepOf(g, f, above, i);
    assert Of(g, f, above).steps[i].children[all[j].boundary] == ChildOf(g, f, above, i, all[j].boundary);
  }

  /** The structure as the loops over a chain's steps and a step's children compute it. */
  method StructureOf(g: G.Graph, f: G.Flow, above: seq<G.Flow>) returns (s: Structure)
    requires G.Closed(g) && f in g && f !in above
    ensures s == Of(g, f, above)
    decreases Left(g, above), 1
  {
    LeftShrinks(g, above, f);
    ghost var whole := Of(g, f, above).steps;
    var nodes := g[f].nodes;
    var seen: map<LocalKey, nat> := map[];
    var steps: seq<Step> := [];
    for i := 0 to |nodes|
      invariant steps == whole[..i]
      invariant forall k :: Seen(seen, k) == Earlier(NodeKeys(nodes), i, k)
    {
      var occurrence := Seen(seen, nodes[i].key);
      seen := seen[nodes[i].key := occurrence + 1];
      var children := ChildrenOf(g, f, above, i);
      assert whole[i] == Step(StepKey(nodes[i].key, occurrence), children) by {
        assert whole[i] == StepOf(g, f, above, i);
      }
      steps := steps + [Step(StepKey(nodes[i].key, occurrence), children)];
    }
    s := Structure(steps);
  }

  method ChildrenOf(g: G.Graph, f: G.Flow, above: seq<G.Flow>, i: nat) returns (children: map<string, Child>)
    requires G.Closed(g) && f in g && f !in above && i < |g[f].nodes|
    ensures children == StepOf(g, f, above, i).children
    decreases Left(g, above + [f]), 2
  {
    var all := g[f].nodes[i].children;
    var inner := above + [f];
    children := map[];
    for j := 0 to |all|
      invariant children.Keys == Boundaries(all[..j])
      invariant forall b | b in children ::
        ChildBy(all[..j], b) in g && children[b] == ChildFor(g, inner, ChildBy(all[..j], b))
    {
      LastChild(all, j);
      G.ChildFlowsHasEdge(g[f].nodes, G.Edge(i, j));
      var child;
      if all[j].flow in inner {
        child := Cycle(IndexOfFlow(inner, all[j].flow));
      } else {
        var s := StructureOf(g, all[j].flow, inner);
        child := Nested(s);
      }
      children := children[all[j].boundary := child];
    }
    assert all[..|all|] == all;
    forall b | b in children ensures children[b] == ChildOf(g, f, above, i, b) { ChildInGraph(g, f, i, b); }
  }

  lemma LastChild(all: seq<G.Child>, j: nat)
    requires j < |all|
    ensures Boundaries(all[..j + 1]) == Boundaries(all[..j]) + {all[j].boundary}
    ensures forall b | b in Boundaries(all[..j + 1]) ::
      ChildBy(all[..j + 1], b) == if b == all[j].boundary then all[j].flow else ChildBy(all[..j], b)
  {
    var front, next := all[..j], all[..j + 1];
    assert next == front + [all[j]];
    assert next[..|next| - 1] == front && next[|next| - 1] == all[j];
    forall b | b in Boundaries(next) ensures b in Boundaries(front) + {all[j].boundary} {
      var c :| c in next && c.boundary == b;
      assert c in front || c == all[j];
    }
    forall b | b in Boundaries(front) ensures b in Boundaries(next) {
      var c :| c in front && c.boundary == b;
      assert c in next;
    }
    assert all[j] in next;
    forall b | b in Boundaries(next)
      ensures ChildBy(next, b) == if b == all[j].boundary then all[j].flow else ChildBy(front, b)
    {
      var last := next[|next| - 1];
      assert ChildBy(next, b) == if last.boundary == b then last.flow else ChildBy(next[..|next| - 1], b);
    }
  }

  ghost function ChildFor(g: G.Graph, inner: seq<G.Flow>, child: G.Flow): Child
    requires G.Closed(g) && child in g
  {
    if child in inner then Cycle(IndexOfFlow(inner, child)) else Nested(Of(g, child, inner))
  }

  // ----- JSON -----

  datatype Json =
    | Text(text: string)
    | Number(number: int)
    | List(items: seq<Json>)
    | Object(fields: map<string, Json>)

  function ToJson(s: Structure): Json {
    List(seq(|s.steps|, i requires 0 <= i < |s.steps| => StepToJson(s.steps[i])))
  }

  function StepToJson(step: Step): Json {
    Object(map["kind" := Text(step.key.local.kind),
               "target" := Text(step.key.local.target),
               "children" := Object(map b | b in step.children :: ChildToJson(step.children[b]))])
  }

  function ChildToJson(child: Child): Json {
    match child
    case Cycle(depth) => Object(map["cycle" := Number(depth)])
    case Nested(s) => ToJson(s)
  }

  lemma ChildFormat(step: Step, b: string)
    requires b in step.children
    ensures var e := StepToJson(step);
      && e.Object? && "children" in e.fields && e.fields["children"].Object? && b in e.fields["children"].fields
      && e.fields["children"].fields[b] ==
           match step.children[b]
           case Cycle(depth) => Object(map["cycle" := Number(depth)])
           case Nested(t) => ToJson(t)
  {}

  /** What a commit records: a list with, for each step in order, its kind, its target and its children
      by boundary, each the list of a nested chain or the depth of a cycle. */
  lemma {:induction false} JsonFormat(s: Structure, i: nat)
    requires i < |s.steps|
    ensures var j := ToJson(s);
      && j.List? && |j.items| == |s.steps| && j.items[i].Object?
      && var fields := j.items[i].fields;
         && fields.Keys == {"kind", "target", "children"}
         && fields["kind"] == Text(s.steps[i].key.local.kind) && fields["target"] == Text(s.steps[i].key.local.target)
         && fields["children"].Object? && fields["children"].fields.Keys == s.steps[i].children.Keys
         && forall b | b in s.steps[i].children ::
              fields["children"].fields[b] ==
                match s.steps[i].children[b]
                case Cycle(depth) => Object(map["cycle" := Number(depth)])
                case Nested(t) => ToJson(t)
  {
    assert ToJson(s).items[i] == StepToJson(s.steps[i]);
    forall b | b in s.steps[i].children ensures StepToJson(s.steps[i]).fields["children"].fields[b] ==
      match s.steps[i].children[b]
      case Cycle(depth) => Object(map["cycle" := Number(depth)])
      case Nested(t) => ToJson(t)
    {
      ChildFormat(s.steps[i], b);
    }
  }

  /** The JSON a structure can be read from; an entry may hold more than is read. */
  predicate IsChain(j: Json)
    decreases j, 0
  {
    j.List? && forall i | 0 <= i < |j.items| :: IsStep(j.items[i])
  }

  predicate IsStep(e: Json) {
    && e.Object? && {"kind", "target", "children"} <= e.fields.Keys
    && e.fields["kind"].Text? && e.fields["target"].Text? && e.fields["children"].Object?
    && var children := e.fields["children"].fields;
       forall b | b in children :: IsChild(children[b])
  }

  predicate IsChild(j: Json)
    decreases j, 1
  {
    if j.Object? then "cycle" in j.fields && j.fields["cycle"].Number? else IsChain(j)
  }

  function LocalOf(e: Json): LocalKey
    requires IsStep(e)
  {
    LocalKey(e.fields["kind"].text, e.fields["target"].text)
  }

  function LocalsIn(items: seq<Json>): (keys: seq<LocalKey>)
    requires forall i | 0 <= i < |items| :: IsStep(items[i])
    ensures |keys| == |items|
  {
    seq(|items|, i requires 0 <= i < |items| => LocalOf(items[i]))
  }

  /** The structure JSON describes: occurrences follow from the order. */
  function Read(j: Json): (s: Structure)
    requires IsChain(j)
    ensures |s.steps| == |j.items|
    decreases j, 1
  {
    Structure(seq(|j.items|, i requires 0 <= i < |j.items| => ReadStep(j, i)))
  }

  function ReadStep(j: Json, i: nat): Step
    requires IsChain(j) && i < |j.items|
    decreases j, 0
  {
    var e := j.items[i];
    Step(StepKey(LocalOf(e), Earlier(LocalsIn(j.items), i, LocalOf(e))), ReadChildren(e))
  }

  function ReadChildren(e: Json): map<string, Child>
    requires IsStep(e)
  {
    var children := e.fields["children"].fields;
    map b | b in children :: ReadChild(children[b])
  }

  function ReadChild(j: Json): Child
    requires IsChild(j)
    decreases j, 2
  {
    if j.Object? then Cycle(j.fields["cycle"].number) else Nested(Read(j))
  }

  lemma {:induction false} JsonIsChain(s: Structure)
    ensures IsChain(ToJson(s)) && LocalsIn(ToJson(s).items) == Locals(s.steps)
  {
    var j := ToJson(s);
    forall i | 0 <= i < |s.steps| ensures IsStep(j.items[i]) && LocalOf(j.items[i]) == s.steps[i].key.local {
      var step := s.steps[i];
      var children := j.items[i].fields["children"].fields;
      forall b | b in children ensures IsChild(children[b]) {
        assert children[b] == ChildToJson(step.children[b]);
        if step.children[b].Nested? {
          JsonIsChain(step.children[b].structure);
        }
      }
    }
  }

  /** What is read is canonical. */
  lemma {:induction false} ReadCanonical(j: Json)
    requires IsChain(j)
    ensures Canonical(Read(j)) && Locals(Read(j).steps) == LocalsIn(j.items)
  {
    var s := Read(j);
    forall i | 0 <= i < |s.steps| ensures s.steps[i] == ReadStep(j, i) {}
    assert Locals(s.steps) == LocalsIn(j.items);
    forall i | 0 <= i < |s.steps| ensures CanonicalAt(s, i) {
      assert s.steps[i] == ReadStep(j, i);
      assert IsStep(j.items[i]) && s.steps[i].children == ReadChildren(j.items[i]);
      var children := j.items[i].fields["children"].fields;
      forall b | b in s.steps[i].children && s.steps[i].children[b].Nested?
        ensures Canonical(s.steps[i].children[b].structure)
      {
        assert s.steps[i].children[b] == ReadChild(children[b]);
        ReadCanonical(children[b]);
      }
    }
  }

  /** Writing and reading back gives the same structure, when its occurrences follow from its order. */
  lemma {:induction false} ReadBack(s: Structure)
    requires Canonical(s)
    ensures IsChain(ToJson(s)) && Read(ToJson(s)) == s
  {
    var j := ToJson(s);
    JsonIsChain(s);
    forall i | 0 <= i < |s.steps| ensures ReadStep(j, i) == s.steps[i] {
      assert CanonicalAt(s, i);
      var step := s.steps[i];
      var children := j.items[i].fields["children"].fields;
      forall b | b in children ensures ReadChild(children[b]) == step.children[b] {
        assert children[b] == ChildToJson(step.children[b]);
        if step.children[b].Nested? {
          ReadBack(step.children[b].structure);
        }
      }
    }
  }

  /** The round trip is exact for the canonical structures and no others. */
  lemma RoundTrip(s: Structure)
    ensures IsChain(ToJson(s)) && (Read(ToJson(s)) == s <==> Canonical(s))
  {
    JsonIsChain(s);
    ReadCanonical(ToJson(s));
    if Canonical(s) {
      ReadBack(s);
    }
  }

  /** Every structure a flow has is read back as it was written. */
  lemma ExtractedRoundTrip(g: G.Graph, f: G.Flow)
    requires G.Closed(g) && f in g
    ensures var s := Of(g, f, []);
      IsChain(ToJson(s)) && Read(ToJson(s)) == s
  {
    OfCanonical(g, f, []);
    ReadBack(Of(g, f, []));
  }

  /** Two flows' commits record the same text exactly when the flows have the same structure. */
  lemma SameTextSameStructure(s: Structure, t: Structure)
    requires Canonical(s) && Canonical(t)
    ensures ToJson(s) == ToJson(t) <==> s == t
  {
    ReadBack(s);
    ReadBack(t);
  }

  /** Reads a structure, or fails on JSON that describes none. */
  method FromJson(raw: Json) returns (s: Option<Structure>)
    ensures s.Some? <==> IsChain(raw)
    ensures s.Some? ==> s.value == Read(raw)
    decreases raw, 1
  {
    if !raw.List? {
      return None;
    }
    var seen: map<LocalKey, nat> := map[];
    var steps: seq<Step> := [];
    ghost var keys: seq<LocalKey> := [];
    for i := 0 to |raw.items|
      invariant |keys| == i && ReadUpTo(raw.items, keys, steps)
      invariant forall k :: Seen(seen, k) == Earlier(keys, i, k)
    {
      var entry := StepFromJson(raw.items[i]);
      if entry.None? {
        return None;
      }
      var local := entry.value.key.local;
      var occurrence := Seen(seen, local);
      seen := seen[local := occurrence + 1];
      ReadOne(raw.items, keys, steps);
      OneMore(keys, local);
      keys := keys + [local];
      steps := steps + [Step(StepKey(local, occurrence), entry.value.children)];
    }
    ReadAll(raw, keys, steps);
    s := Some(Structure(steps));
  }

  /** The first entries read, each with its count among the keys before it. */
  ghost predicate ReadUpTo(items: seq<Json>, keys: seq<LocalKey>, steps: seq<Step>) {
    && |keys| == |steps| <= |items|
    && forall k | 0 <= k < |keys| ::
         IsStep(items[k]) && keys[k] == LocalOf(items[k]) && steps[k] == Numbered(items[k], Earlier(keys, k, keys[k]))
  }

  lemma ReadOne(items: seq<Json>, keys: seq<LocalKey>, steps: seq<Step>)
    requires ReadUpTo(items, keys, steps) && |keys| < |items| && IsStep(items[|keys|])
    ensures var e := items[|keys|];
      ReadUpTo(items, keys + [LocalOf(e)], steps + [Numbered(e, Earlier(keys, |keys|, LocalOf(e)))])
  {
    OneMore(keys, LocalOf(items[|keys|]));
  }

  lemma ReadAll(j: Json, keys: seq<LocalKey>, steps: seq<Step>)
    requires j.List? && ReadUpTo(j.items, keys, steps) && |keys| == |j.items|
    ensures IsChain(j) && Read(j) == Structure(steps)
  {
    assert keys == LocalsIn(j.items);
    assert forall k | 0 <= k < |steps| :: steps[k] == ReadStep(j, k);
  }

  ghost function Numbered(e: Json, occurrence: nat): Step
    requires IsStep(e)
  {
    Step(StepKey(LocalOf(e), occurrence), ReadChildren(e))
  }

  lemma OneMore(keys: seq<LocalKey>, local: LocalKey)
    ensures forall k, x | 0 <= k <= |keys| :: Earlier(keys + [local], k, x) == Earlier(keys, k, x)
  {
    forall k, x | 0 <= k <= |keys| ensures Earlier(keys + [local], k, x) == Earlier(keys, k, x) {
      EarlierInPrefix(keys, [local], k, x);
    }
  }

  /** One entry, before its occurrence is counted. */
  method StepFromJson(e: Json) returns (step: Option<Step>)
    ensures step.Some? <==> IsStep(e)
    ensures step.Some? ==> step.value == Numbered(e, 0)
    decreases e, 0
  {
    if !(e.Object? && {"kind", "target", "children"} <= e.fields.Keys) {
      return None;
    }
    if !(e.fields["kind"].Text? && e.fields["target"].Text? && e.fields["children"].Object?) {
      return None;
    }
    var children := ChildrenFromJson(e.fields["children"]);
    if children.None? {
      return None;
    }
    step := Some(Step(StepKey(LocalKey(e.fields["kind"].text, e.fields["target"].text), 0), children.value));
  }

  method ChildrenFromJson(all: Json) returns (children: Option<map<string, Child>>)
    requires all.Object?
    ensures children.Some? <==> forall b | b in all.fields :: IsChild(all.fields[b])
    ensures children.Some? ==> children.value == map b | b in all.fields :: ReadChild(all.fields[b])
    decreases all
  {
    var fields := all.fields;
    var rest := fields.Keys;
    var out: map<string, Child> := map[];
    while rest != {}
      invariant rest <= fields.Keys && out.Keys == fields.Keys - rest
      invariant forall b | b in out :: IsChild(fields[b]) && out[b] == ReadChild(fields[b])
    {
      var b :| b in rest;
      rest := rest - {b};
      var raw := fields[b];
      if raw.Object? {
        if !("cycle" in raw.fields && raw.fields["cycle"].Number?) {
          return None;
        }
        out := out[b := Cycle(raw.fields["cycle"].number)];
      } else {
        var s := FromJson(raw);
        if s.None? {
          return None;
        }
        out := out[b := Nested(s.value)];
      }
    }
    children := Some(out);
  }
}
