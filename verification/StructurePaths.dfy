/** The steps of a structure by path, and how two structures differ. */
module StructurePaths {
  import opened Wrappers
  import opened NodeIds
  import opened Structures

  /** One level of a path: the boundary its chain was entered by, and the step's key. */
  datatype Segment = Segment(boundary: string, key: StepKey)

  type Path = seq<Segment>

  /** The first step with this key. */
  function IndexOfKey(steps: seq<Step>, key: StepKey): (i: Option<nat>)
    ensures i.Some? ==> i.value < |steps| && steps[i.value].key == key
  {
    if steps == [] then None
    else if steps[0].key == key then Some(0)
    else match IndexOfKey(steps[1..], key)
      case None => None
      case Some(i) => Some(i + 1)
  }

  function Chained(step: Step, b: string): Option<Structure> {
    if b in step.children && step.children[b].Nested? then Some(step.children[b].structure) else None
  }

  /** The step a path leads to, in a chain entered by boundary b; not into cycles. */
  function Find(s: Structure, b: string, path: Path): Option<Step>
    decreases |path|
  {
    if path == [] || path[0].boundary != b then None
    else match IndexOfKey(s.steps, path[0].key)
      case None => None
      case Some(i) =>
        if |path| == 1 then Some(s.steps[i])
        else match Chained(s.steps[i], path[1].boundary)
          case None => None
          case Some(child) => Find(child, path[1].boundary, path[1..])
  }

  // ----- no step is lost -----

  /** In a canonical chain a key belongs to one step. */
  lemma KeysDistinct(s: Structure, i: nat, j: nat)
    requires Canonical(s) && i < j < |s.steps|
    ensures s.steps[i].key != s.steps[j].key
  {
    assert CanonicalAt(s, i) && CanonicalAt(s, j);
    var keys := Locals(s.steps);
    if s.steps[i].key.local == s.steps[j].key.local {
      EarlierMonotone(keys, i, j, keys[i]);
    }
  }

  lemma {:induction false} IndexIsFirst(steps: seq<Step>, i: nat)
    requires i < |steps| && forall j | 0 <= j < i :: steps[j].key != steps[i].key
    ensures IndexOfKey(steps, steps[i].key) == Some(i)
  {
    if i > 0 {
      IndexIsFirst(steps[1..], i - 1);
    }
  }

  lemma IndexOfOwnKey(s: Structure, i: nat)
    requires Canonical(s) && i < |s.steps|
    ensures IndexOfKey(s.steps, s.steps[i].key) == Some(i)
  {
    forall j | 0 <= j < i ensures s.steps[j].key != s.steps[i].key { KeysDistinct(s, j, i); }
    IndexIsFirst(s.steps, i);
  }

  /** Where a step sits: for each level the boundary its chain was entered by, and its position. */
  datatype Place = Place(boundary: string, index: nat)

  function At(s: Structure, b: string, places: seq<Place>): Option<Step>
    decreases |places|
  {
    if places == [] || places[0].boundary != b || places[0].index >= |s.steps| then None
    else
      var step := s.steps[places[0].index];
      if |places| == 1 then Some(step)
      else match Chained(step, places[1].boundary)
        case None => None
        case Some(child) => At(child, places[1].boundary, places[1..])
  }

  function PathTo(s: Structure, b: string, places: seq<Place>): (path: Path)
    requires At(s, b, places).Some?
    ensures |path| == |places| && path[0].boundary == b
    decreases |places|
  {
    var step := s.steps[places[0].index];
    var here := [Segment(b, step.key)];
    if |places| == 1 then here
    else here + PathTo(Chained(step, places[1].boundary).value, places[1].boundary, places[1..])
  }

  lemma ChainedCanonical(s: Structure, i: nat, b: string)
    requires Canonical(s) && i < |s.steps| && Chained(s.steps[i], b).Some?
    ensures Canonical(Chained(s.steps[i], b).value)
  {
    assert CanonicalAt(s, i);
  }

  /** Every step of a structure, wherever it sits, is the one its path leads to. */
  lemma {:induction false} PathFindsStep(s: Structure, b: string, places: seq<Place>)
    requires Canonical(s) && At(s, b, places).Some?
    ensures Find(s, b, PathTo(s, b, places)) == At(s, b, places)
    decreases |places|
  {
    var i := places[0].index;
    IndexOfOwnKey(s, i);
    if |places| > 1 {
      var c := places[1].boundary;
      ChainedCanonical(s, i, c);
      PathFindsStep(Chained(s.steps[i], c).value, c, places[1..]);
      assert PathTo(s, b, places)[1..] == PathTo(Chained(s.steps[i], c).value, c, places[1..]);
    }
  }

  /** No two steps share a path. */
  lemma {:induction false} PathsUnique(s: Structure, b: string, p: seq<Place>, q: seq<Place>)
    requires Canonical(s) && At(s, b, p).Some? && At(s, b, q).Some?
    requires PathTo(s, b, p) == PathTo(s, b, q)
    ensures p == q
    decreases |p|
  {
    var i := p[0].index;
    IndexOfOwnKey(s, i);
    IndexOfOwnKey(s, q[0].index);
    assert PathTo(s, b, p)[0] == PathTo(s, b, q)[0];
    if |p| > 1 {
      var c, d := p[1].boundary, q[1].boundary;
      var x, y := Chained(s.steps[i], c).value, Chained(s.steps[i], d).value;
      assert PathTo(s, b, p)[1..] == PathTo(x, c, p[1..]);
      assert PathTo(s, b, q)[1..] == PathTo(y, d, q[1..]);
      assert c == d;
      ChainedCanonical(s, i, c);
      PathsUnique(x, c, p[1..], q[1..]);
    }
  }

  lemma {:induction false} PathBoundaries(s: Structure, b: string, places: seq<Place>)
    requires At(s, b, places).Some?
    ensures forall i | 0 <= i < |places| :: PathTo(s, b, places)[i].boundary == places[i].boundary
    decreases |places|
  {
    if |places| > 1 {
      var child := Chained(s.steps[places[0].index], places[1].boundary).value;
      PathBoundaries(child, places[1].boundary, places[1..]);
      assert PathTo(s, b, places)[1..] == PathTo(child, places[1].boundary, places[1..]);
      forall i | 0 < i < |places| ensures PathTo(s, b, places)[i].boundary == places[i].boundary {
        assert PathTo(s, b, places)[i] == PathTo(s, b, places)[1..][i - 1];
      }
    }
  }

  // ----- collecting them -----

  /** q leads to a step the walk of s has collected: one of the first i steps or under it, or, once
      step i is collected, that step itself or under it through a boundary in done. */
  ghost predicate Walked(s: Structure, b: string, q: Path, i: nat, entered: bool, done: set<string>) {
    Find(s, b, q).Some? &&
    var k := IndexOfKey(s.steps, q[0].key).value;
    k < i || (k == i && entered && (|q| == 1 || q[1].boundary in done))
  }

  /** What a path below prefix adds to it. */
  function Below(prefix: Path, p: Path): Option<Path> {
    if prefix <= p then Some(p[|prefix|..]) else None
  }

  ghost predicate Collected(prefix: Path, s: Structure, b: string, p: Path, i: nat, entered: bool, done: set<string>) {
    Below(prefix, p).Some? && Walked(s, b, Below(prefix, p).value, i, entered, done)
  }

  /** Whether p is below prefix in the chain s entered by b, and the step there. */
  ghost function Within(prefix: Path, s: Structure, b: string, p: Path): Option<Step> {
    match Below(prefix, p)
    case None => None
    case Some(q) => Find(s, b, q)
  }

  lemma {:induction false} FindExtends(s: Structure, b: string, i: nat, c: string, q: Path)
    requires Canonical(s) && i < |s.steps| && q != [] && q[0].boundary == c
    ensures Find(s, b, [Segment(b, s.steps[i].key)] + q) ==
      match Chained(s.steps[i], c) { case None => None case Some(child) => Find(child, c, q) }
  {
    var p := [Segment(b, s.steps[i].key)] + q;
    IndexOfOwnKey(s, i);
    assert p[1..] == q;
  }

  lemma {:induction false} ParentFound(s: Structure, b: string, p: Path, n: nat)
    requires Find(s, b, p).Some? && 0 < n <= |p|
    ensures Find(s, b, p[..n]).Some?
    decreases n
  {
    if n > 1 {
      var i := IndexOfKey(s.steps, p[0].key).value;
      var c := p[1].boundary;
      ParentFound(Chained(s.steps[i], c).value, c, p[1..], n - 1);
      assert p[..n][1..] == p[1..][..n - 1];
    }
  }

  /** A step's own path is the one the walk adds when it reaches the step. */
  lemma WalksStep(prefix: Path, s: Structure, b: string, i: nat, p: Path)
    requires Canonical(s) && i < |s.steps|
    ensures var own := prefix + [Segment(b, s.steps[i].key)];
      && (Collected(prefix, s, b, p, i, true, {}) <==> Collected(prefix, s, b, p, i, false, {}) || p == own)
      && !Collected(prefix, s, b, own, i, false, {})
      && Within(prefix, s, b, own) == Some(s.steps[i])
  {
    var seg := Segment(b, s.steps[i].key);
    var own := prefix + [seg];
    IndexOfOwnKey(s, i);
    assert Below(prefix, own) == Some([seg]);
    if Below(prefix, p).Some? {
      var q := Below(prefix, p).value;
      assert p == prefix + q;
      if |q| == 1 && Find(s, b, q).Some? && IndexOfKey(s.steps, q[0].key) == Some(i) {
        assert q == [seg];
      }
    }
  }

  /** A child chain's paths are the ones the walk adds when it goes through the chain's boundary. */
  lemma WalksChain(prefix: Path, s: Structure, b: string, i: nat, done: set<string>, c: string, p: Path)
    requires Canonical(s) && i < |s.steps| && c !in done
    ensures var own := prefix + [Segment(b, s.steps[i].key)];
      var child := Chained(s.steps[i], c);
      var inChild := child.Some? && Within(own, child.value, c, p).Some?;
      && (Collected(prefix, s, b, p, i, true, done + {c}) <==> Collected(prefix, s, b, p, i, true, done) || inChild)
      && (inChild ==> !Collected(prefix, s, b, p, i, true, done) && Within(prefix, s, b, p) == Within(own, child.value, c, p))
  {
    var seg := Segment(b, s.steps[i].key);
    var own := prefix + [seg];
    var child := Chained(s.steps[i], c);
    IndexOfOwnKey(s, i);
    if Below(prefix, p).Some? {
      var q := Below(prefix, p).value;
      assert p == prefix + q;
      if |q| > 1 && q[0] == seg {
        assert p == own + q[1..] && own <= p;
        assert p[|own|..] == q[1..];
        assert q == [seg] + q[1..];
        FindExtends(s, b, i, q[1].boundary, q[1..]);
      } else if own <= p {
        assert p == own + p[|own|..];
        assert q == [seg] + p[|own|..];
        assert p[|own|..] == [];
      }
    }
  }

  /** Having gone through every boundary of step i, the walk has the whole of it. */
  lemma WalkedWhole(prefix: Path, s: Structure, b: string, i: nat, p: Path)
    requires Canonical(s) && i < |s.steps|
    ensures Collected(prefix, s, b, p, i, true, s.steps[i].children.Keys) <==> Collected(prefix, s, b, p, i + 1, false, {})
  {
    IndexOfOwnKey(s, i);
  }

  /** What is collected: what was there before, and what the walk of s has reached. */
  ghost predicate Holds(before: map<Path, Step>, now: map<Path, Step>, prefix: Path, s: Structure, b: string,
                        i: nat, entered: bool, done: set<string>)
  {
    && (forall p :: p in now <==> p in before || Collected(prefix, s, b, p, i, entered, done))
    && (forall p | p in now :: now[p] == if Collected(prefix, s, b, p, i, entered, done) then Within(prefix, s, b, p).value else before[p])
  }

  /** Nothing there lies within the chain. */
  ghost predicate Clear(now: map<Path, Step>, prefix: Path, s: Structure, b: string) {
    forall p | p in now :: Within(prefix, s, b, p).None?
  }

  /** All of the chain s is there, and what was there before. */
  ghost predicate HoldsChain(before: map<Path, Step>, now: map<Path, Step>, prefix: Path, s: Structure, b: string) {
    && (forall p :: p in now <==> p in before || Within(prefix, s, b, p).Some?)
    && (forall p | p in now :: now[p] == if Within(prefix, s, b, p).Some? then Within(prefix, s, b, p).value else before[p])
  }

  lemma StartsClear(before: map<Path, Step>, prefix: Path, s: Structure, b: string)
    ensures Holds(before, before, prefix, s, b, 0, false, {})
  {}

  lemma AddsStep(before: map<Path, Step>, now: map<Path, Step>, prefix: Path, s: Structure, b: string, i: nat)
    requires Canonical(s) && i < |s.steps| && Clear(before, prefix, s, b) && Holds(before, now, prefix, s, b, i, false, {})
    ensures var own := prefix + [Segment(b, s.steps[i].key)];
      own !in now && Holds(before, now[own := s.steps[i]], prefix, s, b, i, true, {})
  {
    var own := prefix + [Segment(b, s.steps[i].key)];
    forall p
      ensures Collected(prefix, s, b, p, i, true, {}) <==> Collected(prefix, s, b, p, i, false, {}) || p == own
    {
      WalksStep(prefix, s, b, i, p);
    }
    WalksStep(prefix, s, b, i, own);
  }

  lemma ChainClear(before: map<Path, Step>, now: map<Path, Step>, prefix: Path, s: Structure, b: string, i: nat, done: set<string>, c: string)
    requires Canonical(s) && i < |s.steps| && c !in done && Chained(s.steps[i], c).Some?
    requires Clear(before, prefix, s, b) && Holds(before, now, prefix, s, b, i, true, done)
    ensures Clear(now, prefix + [Segment(b, s.steps[i].key)], Chained(s.steps[i], c).value, c)
  {
    var own := prefix + [Segment(b, s.steps[i].key)];
    forall p | p in now ensures Within(own, Chained(s.steps[i], c).value, c, p).None? {
      WalksChain(prefix, s, b, i, done, c, p);
    }
  }

  lemma {:induction false} AddsChain(before: map<Path, Step>, now: map<Path, Step>, next: map<Path, Step>, prefix: Path, s: Structure, b: string, i: nat, done: set<string>, c: string)
    requires Canonical(s) && i < |s.steps| && c !in done
    requires Holds(before, now, prefix, s, b, i, true, done)
    requires match Chained(s.steps[i], c)
      case None => next == now
      case Some(child) => HoldsChain(now, next, prefix + [Segment(b, s.steps[i].key)], child, c)
    ensures Holds(before, next, prefix, s, b, i, true, done + {c})
  {
    forall p
      ensures p in next <==> p in before || Collected(prefix, s, b, p, i, true, done + {c})
      ensures p in next ==> next[p] == if Collected(prefix, s, b, p, i, true, done + {c}) then Within(prefix, s, b, p).value else before[p]
    {
      WalksChain(prefix, s, b, i, done, c, p);
    }
  }

  lemma StepWhole(before: map<Path, Step>, now: map<Path, Step>, prefix: Path, s: Structure, b: string, i: nat)
    requires Canonical(s) && i < |s.steps| && Holds(before, now, prefix, s, b, i, true, s.steps[i].children.Keys)
    ensures Holds(before, now, prefix, s, b, i + 1, false, {})
  {
    forall p
      ensures Collected(prefix, s, b, p, i, true, s.steps[i].children.Keys) <==> Collected(prefix, s, b, p, i + 1, false, {})
    {
      WalkedWhole(prefix, s, b, i, p);
    }
  }

  lemma ChainWhole(before: map<Path, Step>, now: map<Path, Step>, prefix: Path, s: Structure, b: string)
    requires Holds(before, now, prefix, s, b, |s.steps|, false, {})
    ensures HoldsChain(before, now, prefix, s, b)
  {
    forall p ensures Collected(prefix, s, b, p, |s.steps|, false, {}) <==> Within(prefix, s, b, p).Some? {}
  }

  function Parent(p: Path): Path
    requires p != []
  {
    p[..|p| - 1]
  }

  ghost predicate NoDuplicates(order: seq<Path>) {
    forall j, k | 0 <= j < k < |order| :: order[j] != order[k]
  }

  ghost predicate ParentBefore(order: seq<Path>, k: nat)
    requires k < |order|
  {
    order[k] != [] && (|order[k]| > 1 ==> Parent(order[k]) in order[..k])
  }

  ghost predicate ParentsFirst(order: seq<Path>) {
    forall k | 0 <= k < |order| :: ParentBefore(order, k)
  }

  ghost predicate SameKeys(steps: map<Path, Step>, order: seq<Path>) {
    forall p :: p in steps <==> p in order
  }

  /** The steps by path, in the order they were added: each once, parents before children. */
  ghost predicate Ordered(steps: map<Path, Step>, order: seq<Path>) {
    SameKeys(steps, order) && NoDuplicates(order) && ParentsFirst(order)
  }

  lemma ParentsFirstAdds(order: seq<Path>, p: Path)
    requires ParentsFirst(order) && p != [] && (|p| > 1 ==> Parent(p) in order)
    ensures ParentsFirst(order + [p])
  {
    var next := order + [p];
    forall k | 0 <= k < |next| ensures ParentBefore(next, k) {
      if k < |order| {
        assert ParentBefore(order, k);
        assert next[..k] == order[..k];
      } else {
        assert next[..k] == order;
      }
    }
  }

  lemma OrderedAdds(steps: map<Path, Step>, order: seq<Path>, p: Path, step: Step)
    requires Ordered(steps, order) && p != [] && p !in steps && (|p| > 1 ==> Parent(p) in order)
    ensures Ordered(steps[p := step], order + [p]) && order <= order + [p] && p in order + [p]
  {
    ParentsFirstAdds(order, p);
    assert (order + [p])[|order|] == p;
    assert SameKeys(steps[p := step], order + [p]);
    assert p !in order;
    assert NoDuplicates(order + [p]);
  }

  /** Orders only grow. */
  lemma StillIn(a: seq<Path>, b: seq<Path>, c: seq<Path>, p: Path)
    requires a <= b && b <= c
    ensures a <= c && (p in b ==> p in c)
  {}

  /** The dict a structure's steps are collected in. */
  class PathIndex {
    var steps: map<Path, Step>
    var order: seq<Path>

    constructor ()
      ensures steps == map[] && order == []
    {
      steps, order := map[], [];
    }

    /** Adds the steps of chain s under prefix, parents before children. */
    method Collect(s: Structure, prefix: Path, boundary: string)
      requires Canonical(s) && Clear(steps, prefix, s, boundary)
      requires Ordered(steps, order) && (prefix == [] || prefix in order)
      modifies this
      ensures HoldsChain(old(steps), steps, prefix, s, boundary)
      ensures Ordered(steps, order) && old(order) <= order
      decreases s, 1
    {
      ghost var before, first := steps, order;
      StartsClear(before, prefix, s, boundary);
      for i := 0 to |s.steps|
        invariant Holds(before, steps, prefix, s, boundary, i, false, {})
        invariant Ordered(steps, order) && first <= order && (prefix == [] || prefix in order)
      {
        ghost var sofar := order;
        CollectStep(before, s, prefix, boundary, i);
        StillIn(first, sofar, order, prefix);
      }
      ChainWhole(before, steps, prefix, s, boundary);
    }

    /** Adds step i of chain s, then the chains it descends into. */
    method CollectStep(ghost before: map<Path, Step>, s: Structure, prefix: Path, boundary: string, i: nat)
      requires Canonical(s) && i < |s.steps| && Clear(before, prefix, s, boundary)
      requires Holds(before, steps, prefix, s, boundary, i, false, {})
      requires Ordered(steps, order) && (prefix == [] || prefix in order)
      modifies this
      ensures Holds(before, steps, prefix, s, boundary, i + 1, false, {})
      ensures Ordered(steps, order) && old(order) <= order
      decreases s, 0
    {
      ghost var first := order;
      var step := s.steps[i];
      var path := prefix + [Segment(boundary, step.key)];
      AddsStep(before, steps, prefix, s, boundary, i);
      assert Parent(path) == prefix;
      OrderedAdds(steps, order, path, step);
      steps, order := steps[path := step], order + [path];
      var rest := step.children.Keys;
      ghost var done: set<string> := {};
      while rest != {}
        invariant done + rest == step.children.Keys && done !! rest
        invariant Holds(before, steps, prefix, s, boundary, i, true, done)
        invariant Ordered(steps, order) && first <= order && path in order
      {
        var c :| c in rest;
        ghost var sofar := order;
        CollectChild(before, s, prefix, boundary, i, done, c);
        StillIn(first, sofar, order, path);
        rest, done := rest - {c}, done + {c};
      }
      assert done == step.children.Keys;
      StepWhole(before, steps, prefix, s, boundary, i);
    }

    /** Adds the chain that step i of chain s descends into by boundary c, if it is no cycle. */
    method CollectChild(ghost before: map<Path, Step>, s: Structure, prefix: Path, boundary: string, i: nat,
                        ghost done: set<string>, c: string)
      requires Canonical(s) && i < |s.steps| && c in s.steps[i].children && c !in done && Clear(before, prefix, s, boundary)
      requires Holds(before, steps, prefix, s, boundary, i, true, done)
      requires Ordered(steps, order) && prefix + [Segment(boundary, s.steps[i].key)] in order
      modifies this
      ensures Holds(before, steps, prefix, s, boundary, i, true, done + {c})
      ensures Ordered(steps, order) && old(order) <= order
      decreases s, 0, 0
    {
      ghost var now := steps;
      var step := s.steps[i];
      if step.children[c].Nested? {
        ChainClear(before, now, prefix, s, boundary, i, done, c);
        ChainedCanonical(s, i, c);
        Collect(step.children[c].structure, prefix + [Segment(boundary, step.key)], c);
      }
      AddsChain(before, now, steps, prefix, s, boundary, i, done, c);
    }
  }

  /** Every step by its path, parents before children: exactly the paths that lead to a step. */
  method StepsByPath(s: Structure) returns (index: PathIndex)
    requires Canonical(s)
    ensures fresh(index) && IsIndex(s, index.steps, index.order)
  {
    index := new PathIndex();
    var top: Path := [];
    index.Collect(s, top, "");
    forall p: Path ensures Within(top, s, "", p) == Find(s, "", p) {
      assert top <= p && p[|top|..] == p;
    }
  }

  ghost predicate IsIndex(s: Structure, steps: map<Path, Step>, order: seq<Path>) {
    && Ordered(steps, order)
    && (forall p :: p in steps <==> Find(s, "", p).Some?)
    && (forall p | p in steps :: Find(s, "", p) == Some(steps[p]))
  }

  // ----- how two structures differ -----

  function Kept(order: seq<Path>, other: map<Path, Step>): (kept: seq<Path>)
    ensures forall p :: p in kept <==> p in order && p in other
  {
    if order == [] then []
    else Kept(order[..|order| - 1], other) + if order[|order| - 1] in other then [order[|order| - 1]] else []
  }

  function Missing(order: seq<Path>, other: map<Path, Step>): (missing: seq<Path>)
    ensures forall p :: p in missing <==> p in order && p !in other
  {
    if order == [] then []
    else Missing(order[..|order| - 1], other) + if order[|order| - 1] in other then [] else [order[|order| - 1]]
  }

  /** Kept and added steps are the new structure's, kept and removed ones the old one's, each once and
      in order; a step is kept exactly when both structures have a step at its path. */
  lemma {:induction false} DiffExact(a: Structure, oldSteps: map<Path, Step>, oldOrder: seq<Path>, b: Structure, newSteps: map<Path, Step>, newOrder: seq<Path>, p: Path)
    requires IsIndex(a, oldSteps, oldOrder) && IsIndex(b, newSteps, newOrder)
    ensures p in Kept(newOrder, oldSteps) <==> Find(a, "", p).Some? && Find(b, "", p).Some?
    ensures p in Missing(oldOrder, newSteps) <==> Find(a, "", p).Some? && Find(b, "", p).None?
    ensures p in Missing(newOrder, oldSteps) <==> Find(a, "", p).None? && Find(b, "", p).Some?
    ensures multiset(Kept(newOrder, oldSteps)) + multiset(Missing(newOrder, oldSteps)) == multiset(newOrder)
    ensures multiset(Kept(oldOrder, newSteps)) + multiset(Missing(oldOrder, newSteps)) == multiset(oldOrder)
    ensures multiset(Kept(oldOrder, newSteps)) == multiset(Kept(newOrder, oldSteps))
  {
    Splits(newOrder, oldSteps);
    Splits(oldOrder, newSteps);
    KeptOnce(newOrder, oldSteps);
    KeptOnce(oldOrder, newSteps);
    SameElements(Kept(oldOrder, newSteps), Kept(newOrder, oldSteps));
  }

  lemma {:induction false} Splits(order: seq<Path>, other: map<Path, Step>)
    ensures multiset(Kept(order, other)) + multiset(Missing(order, other)) == multiset(order)
  {
    if order != [] {
      Splits(order[..|order| - 1], other);
      assert order == order[..|order| - 1] + [order[|order| - 1]];
    }
  }

  lemma {:induction false} KeptOnce(order: seq<Path>, other: map<Path, Step>)
    requires NoDuplicates(order)
    ensures NoDuplicates(Kept(order, other))
  {
    if order != [] {
      var front, last := order[..|order| - 1], order[|order| - 1];
      KeptOnce(front, other);
      assert last !in front;
      assert last !in Kept(front, other);
    }
  }

  lemma {:induction false} CountsOnce(s: seq<Path>, p: Path)
    requires NoDuplicates(s)
    ensures multiset(s)[p] == if p in s then 1 else 0
  {
    if s != [] {
      var front, last := s[..|s| - 1], s[|s| - 1];
      assert s == front + [last];
      CountsOnce(front, p);
      assert last !in front;
    }
  }

  lemma SameElements(s: seq<Path>, t: seq<Path>)
    requires NoDuplicates(s) && NoDuplicates(t) && forall p :: p in s <==> p in t
    ensures multiset(s) == multiset(t)
  {
    forall p ensures multiset(s)[p] == multiset(t)[p] {
      CountsOnce(s, p);
      CountsOnce(t, p);
    }
  }

  /** Everything under a removed step is removed with it, and everything above a kept one is kept. */
  lemma SubtreesGoTogether(a: Structure, b: Structure, p: Path, q: Path)
    requires p != [] && p <= q && Find(a, "", q).Some?
    ensures Find(a, "", p).Some?
    ensures Find(b, "", p).None? ==> Find(b, "", q).None?
  {
    assert q[..|p|] == p;
    ParentFound(a, "", q, |p|);
    if Find(b, "", q).Some? {
      ParentFound(b, "", q, |p|);
    }
  }
}
