/** Cost trackers: a tree of objects in which a cost recorded at one counts at everything above it. */
module CostTrackers {
  import opened Wrappers

  type Usage(==, !new)

  type Context(==, !new)

  /** An asyncio event. */
  class Event {
    var isSet: bool

    constructor ()
      ensures !isSet
    {
      isSet := false;
    }
  }

  /** One tracker's accounting. */
  datatype Level = Level(spent: real, costs: map<string, real>, budget: Option<real>, urgent: bool)
  {
    predicate Exceeded() { budget.Some? && spent >= budget.value }
  }

  function Cost(costs: map<string, real>, op: string): real { if op in costs then costs[op] else 0.0 }

  function Recorded(l: Level, op: string, cost: real): Level {
    var spent := l.spent + cost;
    Level(spent, l.costs[op := Cost(l.costs, op) + cost], l.budget,
          l.urgent || (!l.Exceeded() && l.(spent := spent).Exceeded()))
  }

  /** The record takes the tracker from within its cap to over it. */
  predicate Crosses(l: Level, op: string, cost: real) {
    !l.Exceeded() && Recorded(l, op, cost).Exceeded()
  }

  /** A record adds the cost to the spend and to its op and leaves the cap. It latches when it takes the
      spend from within the cap to it or over it: on a level that was there already it does not. */
  lemma RecordChanges(l: Level, op: string, cost: real)
    ensures var r := Recorded(l, op, cost);
      && r.spent == l.spent + cost && r.budget == l.budget
      && r.costs.Keys == l.costs.Keys + {op}
      && r.costs[op] == cost + (if op in l.costs then l.costs[op] else 0.0)
      && (forall o | o in l.costs && o != op :: r.costs[o] == l.costs[o])
      && (r.urgent <==> l.urgent || (l.budget.Some? && l.spent < l.budget.value <= l.spent + cost))
      && (Crosses(l, op, cost) <==> l.budget.Some? && l.spent < l.budget.value <= l.spent + cost)
  {}

  /** A callback: true when it raises. */
  type Callback = (real, Context, bool) -> bool

  class CostTracker {
    const pricing: (string, Usage) -> real
    const parent: CostTracker?
    const onCost: Option<Callback>
    const halt: Event?
    var budget: Option<real>
    var spent: real
    var costsByOp: map<string, real>
    var urgentWrapup: bool
    /** This tracker and those above it, up to the root. */
    ghost const chain: seq<CostTracker>

    ghost predicate Valid() {
      && chain != [] && chain[0] == this
      && forall k | 0 <= k < |chain| :: Linked(chain, k)
    }

    ghost function State(): Level
      reads this
    {
      Level(spent, costsByOp, budget, urgentWrapup)
    }

    constructor (pricing: (string, Usage) -> real, budget: Option<real>, parent: CostTracker?, onCost: Option<Callback>, halt: Event?)
      requires budget.Some? ==> budget.value > 0.0
      requires parent != null ==> parent.Valid()
      ensures Valid() && State() == Level(0.0, map[], budget, false)
      ensures this.parent == parent && this.pricing == pricing && this.onCost == onCost && this.halt == halt
      ensures chain == [this] + if parent == null then [] else parent.chain
    {
      this.pricing, this.parent, this.onCost, this.halt := pricing, parent, onCost, halt;
      this.budget, spent, costsByOp, urgentWrapup := budget, 0.0, map[], false;
      chain := [this] + if parent == null then [] else parent.chain;
      new;
      if parent != null {
        forall k | 0 <= k < |chain| ensures Linked(chain, k) {
          if k > 0 {
            assert Linked(parent.chain, k - 1);
            assert chain[k..] == parent.chain[k - 1..];
          }
        }
      }
    }

    /** A tracker whose costs report up to this one; its cap is refused when it is not positive. */
    method Child(budget: Option<real>, onCost: Option<Callback>, halt: Event?) returns (child: Option<CostTracker>)
      requires Valid()
      ensures child.None? <==> budget.Some? && budget.value <= 0.0
      ensures child.Some? ==>
        && fresh(child.value) && child.value.Valid() && child.value.chain == [child.value] + chain
        && child.value.State() == Level(0.0, map[], budget, false)
        && child.value.pricing == pricing && child.value.onCost == onCost && child.value.halt == halt
    {
      if budget.Some? && budget.value <= 0.0 {
        return None;
      }
      var c := new CostTracker(pricing, budget, this, onCost, halt);
      child := Some(c);
    }

    /** Books the cost here, then at everything above, and only then calls back, from the top down: every
        callback sees the whole chain booked, and one that raises stops the ones below it. whole and before are the chain the cost was
        tracked at and its accounting before; this is its level n. */
    method RecordCost(cost: real, op: string, context: Context, overridden: bool,
                      ghost whole: seq<CostTracker>, ghost before: seq<Level>, ghost n: nat)
      returns (raised: bool, ghost trace: seq<Called>)
      requires n < |whole| == |before| && whole[n] == this && IsChain(whole)
      requires Booked(whole, before, op, cost, n)
      modifies whole[n..], Halts(whole[n..])
      ensures Booked(whole, before, op, cost, |whole|)
      ensures forall e | e in Halts(whole[n..]) :: e.isSet <==> old(e.isSet) || Fired(whole[n..], before[n..], op, cost, e)
      ensures (Callers(trace), raised) == Calls(whole[n..], cost, context, overridden)
      ensures AllBooked(trace, before, op, cost)
      decreases |whole| - n, 1
    {
      ghost var here := whole[n..];
      assert here[0] == this;
      raised, trace := BookAndRecordAbove(cost, op, context, overridden, whole, before, n);
      if !raised && onCost.Some? {
        ghost var seen;
        raised, seen := Notify(cost, context, overridden, whole);
        LevelsBooked(whole, before, op, cost);
        TraceAdds(trace, Called(this, seen), before, op, cost);
        trace := trace + [Called(this, seen)];
      }
    }

    /** Everything but this level's callback. */
    method BookAndRecordAbove(cost: real, op: string, context: Context, overridden: bool,
                              ghost whole: seq<CostTracker>, ghost before: seq<Level>, ghost n: nat)
      returns (raised: bool, ghost trace: seq<Called>)
      requires n < |whole| == |before| && whole[n] == this && IsChain(whole)
      requires Booked(whole, before, op, cost, n)
      modifies whole[n..], Halts(whole[n..])
      ensures Booked(whole, before, op, cost, |whole|)
      ensures forall e | e in Halts(whole[n..]) :: e.isSet <==> old(e.isSet) || Fired(whole[n..], before[n..], op, cost, e)
      ensures (Callers(trace), raised) == Calls(whole[n..][1..], cost, context, overridden)
      ensures AllBooked(trace, before, op, cost)
      decreases |whole| - n, 0, 1
    {
      ghost var rest, levels := whole[n + 1..], before[n + 1..];
      assert whole[n..][1..] == rest && before[n..][1..] == levels;
      BookHere(cost, op, whole, before, n);
      label booked:
      raised, trace := RecordAbove(cost, op, context, overridden, whole, before, n);
      forall e | e in Halts(whole[n..])
        ensures e.isSet <==> old(e.isSet) || Fired(whole[n..], before[n..], op, cost, e)
      {
        assert old@booked(e.isSet) <==> old(e.isSet) || (halt == e && Crosses(before[n], op, cost));
        if e !in Halts(rest) && Fired(rest, levels, op, cost, e) {
          FiredAtHalts(rest, levels, op, cost, e);
        }
        assert e.isSet <==> old@booked(e.isSet) || Fired(rest, levels, op, cost, e);
      }
    }

    /** Records at everything above. */
    method RecordAbove(cost: real, op: string, context: Context, overridden: bool,
                       ghost whole: seq<CostTracker>, ghost before: seq<Level>, ghost n: nat)
      returns (raised: bool, ghost trace: seq<Called>)
      requires n < |whole| == |before| && whole[n] == this && IsChain(whole)
      requires Booked(whole, before, op, cost, n + 1)
      modifies whole[n + 1..], Halts(whole[n + 1..])
      ensures Booked(whole, before, op, cost, |whole|)
      ensures forall e | e in Halts(whole[n + 1..]) ::
        e.isSet <==> old(e.isSet) || Fired(whole[n + 1..], before[n + 1..], op, cost, e)
      ensures (Callers(trace), raised) == Calls(whole[n + 1..], cost, context, overridden)
      ensures AllBooked(trace, before, op, cost)
      decreases |whole| - n, 0, 0
    {
      assert Linked(whole, n);
      trace, raised := [], false;
      if parent != null {
        raised, trace := parent.RecordCost(cost, op, context, overridden, whole, before, n + 1);
      }
    }

    /** The bookkeeping at this level. */
    method BookHere(cost: real, op: string, ghost whole: seq<CostTracker>, ghost before: seq<Level>, ghost n: nat)
      requires n < |whole| == |before| && whole[n] == this && IsChain(whole)
      requires Booked(whole, before, op, cost, n)
      modifies this, if halt == null then {} else {halt}
      ensures Booked(whole, before, op, cost, n + 1)
      ensures halt != null ==> (halt.isSet <==> old(halt.isSet) || Crosses(before[n], op, cost))
    {
      ChainDistinct(whole);
      ghost var l := State();
      var wasExceeded := budget.Some? && spent >= budget.value;
      spent := spent + cost;
      costsByOp := costsByOp[op := (if op in costsByOp then costsByOp[op] else 0.0) + cost];
      if !wasExceeded && budget.Some? && spent >= budget.value {
        if halt != null {
          halt.isSet := true;
        }
        urgentWrapup := true;
      }
      assert State() == Recorded(l, op, cost);
    }

    /** Tracks one usage: the price, or the cost given instead, is recorded here and at everything
        above, whatever the callbacks do. */
    method Track(op: string, usage: Usage, overrideCost: Option<real>, context: Context)
      returns (cost: real, raised: bool, ghost trace: seq<Called>)
      requires Valid()
      modifies chain, Halts(chain)
      ensures cost == if overrideCost.Some? then overrideCost.value else pricing(op, usage)
      ensures forall k | 0 <= k < |chain| :: chain[k].State() == Recorded(old(chain[k].State()), op, cost)
      ensures forall t | t in chain ::
        && t.spent == old(t.spent) + cost && t.budget == old(t.budget)
        && (t.urgentWrapup <==>
             old(t.urgentWrapup) || (t.budget.Some? && old(t.spent) < t.budget.value <= old(t.spent) + cost))
      ensures forall e | e in Halts(chain) ::
        (e.isSet <==>
           old(e.isSet) || exists k | 0 <= k < |chain| ::
             chain[k].halt == e && chain[k].budget.Some? && old(chain[k].spent) < chain[k].budget.value <= old(chain[k].spent) + cost)
      ensures (Callers(trace), raised) == Calls(chain, cost, context, overrideCost.Some?)
      ensures AllBooked(trace, old(Levels(chain)), op, cost)
    {
      ghost var before := Levels(chain);
      cost := if overrideCost.Some? then overrideCost.value else pricing(op, usage);
      assert chain[0..] == chain && before[0..] == before;
      raised, trace := RecordCost(cost, op, context, overrideCost.Some?, chain, before, 0);
      forall e | e in Halts(chain)
        ensures Fired(chain, before, op, cost, e) <==>
          exists k | 0 <= k < |chain| :: chain[k].halt == e && Crosses(before[k], op, cost)
      {
        FiredBySome(chain, before, op, cost, e);
      }
    }

    /** Amends the cap; a cap at or under the spend neither latches nor halts. */
    method UpdateBudget(newBudget: real) returns (ok: bool)
      modifies this`budget
      ensures ok <==> newBudget > 0.0
      ensures State() == if ok then old(State()).(budget := Some(newBudget)) else old(State())
    {
      ok := newBudget > 0.0;
      if ok {
        budget := Some(newBudget);
      }
    }

    function Snapshot(): (real, map<string, real>)
      reads this
    {
      (spent, costsByOp)
    }

    /** Takes a snapshot's accounting at this level alone: spend over the cap latches and halts, spend
        under it takes back neither. */
    method Restore(data: (real, map<string, real>))
      modifies this, if halt == null then {} else {halt}
      ensures Snapshot() == data && budget == old(budget)
      ensures urgentWrapup <==> old(urgentWrapup) || (budget.Some? && spent >= budget.value)
      ensures halt != null ==> (halt.isSet <==> old(halt.isSet) || (budget.Some? && spent >= budget.value))
    {
      spent, costsByOp := data.0, data.1;
      if budget.Some? && spent >= budget.value {
        urgentWrapup := true;
        if halt != null {
          halt.isSet := true;
        }
      }
    }

    /** Calls back; seen is the accounting of the chain the cost was tracked at, at that moment. */
    method Notify(cost: real, context: Context, overridden: bool, ghost whole: seq<CostTracker>)
      returns (raises: bool, ghost seen: seq<Level>)
      requires onCost.Some?
      ensures raises == onCost.value(cost, context, overridden) && seen == Levels(whole)
    {
      seen := Levels(whole);
      raises := onCost.value(cost, context, overridden);
    }
  }

  // ----- chains -----

  ghost predicate Linked(chain: seq<CostTracker>, k: nat)
    requires k < |chain|
  {
    && chain[k].chain == chain[k..]
    && chain[k].parent == if k + 1 < |chain| then chain[k + 1] else null
  }

  ghost predicate IsChain(chain: seq<CostTracker>) {
    forall k | 0 <= k < |chain| :: Linked(chain, k)
  }

  /** No tracker is above itself. */
  lemma ChainDistinct(chain: seq<CostTracker>)
    requires IsChain(chain)
    ensures forall j, k | 0 <= j < k < |chain| :: chain[j] != chain[k]
  {
    forall j, k | 0 <= j < k < |chain| ensures chain[j] != chain[k] {
      assert Linked(chain, j) && Linked(chain, k);
      assert |chain[j..]| != |chain[k..]|;
    }
  }

  /** The halt events of a chain's trackers. */
  ghost function Halts(chain: seq<CostTracker>): set<Event> {
    set t | t in chain && t.halt != null :: t.halt
  }

  /** The first n levels have the cost booked, the others are as before. */
  ghost predicate Booked(whole: seq<CostTracker>, before: seq<Level>, op: string, cost: real, n: nat)
    requires |whole| == |before|
    reads whole
  {
    forall k | 0 <= k < |whole| :: whole[k].State() == if k < n then Recorded(before[k], op, cost) else before[k]
  }

  /** Some level's own cap is crossed, and e is its halt. */
  ghost predicate Fired(chain: seq<CostTracker>, before: seq<Level>, op: string, cost: real, e: Event)
    requires |chain| == |before|
  {
    chain != [] && (
      || (chain[0].halt == e && Crosses(before[0], op, cost))
      || Fired(chain[1..], before[1..], op, cost, e))
  }

  lemma {:induction false} FiredBySome(chain: seq<CostTracker>, before: seq<Level>, op: string, cost: real, e: Event)
    requires |chain| == |before|
    ensures Fired(chain, before, op, cost, e) <==>
      exists k :: 0 <= k < |chain| && chain[k].halt == e && Crosses(before[k], op, cost)
  {
    if chain != [] {
      FiredBySome(chain[1..], before[1..], op, cost, e);
      if Fired(chain[1..], before[1..], op, cost, e) {
        var k :| 0 <= k < |chain[1..]| && chain[1..][k].halt == e && Crosses(before[1..][k], op, cost);
        assert chain[k + 1].halt == e;
      }
      if k :| 0 <= k < |chain| && chain[k].halt == e && Crosses(before[k], op, cost) && k > 0 {
        assert chain[1..][k - 1].halt == e;
      }
    }
  }

  lemma FiredAtHalts(chain: seq<CostTracker>, before: seq<Level>, op: string, cost: real, e: Event)
    requires |chain| == |before| && Fired(chain, before, op, cost, e)
    ensures e in Halts(chain)
  {
    FiredBySome(chain, before, op, cost, e);
    var k :| 0 <= k < |chain| && chain[k].halt == e;
    assert chain[k] in chain;
  }

  /** One callback called, and the accounting of the whole chain when it was. */
  datatype Called = Called(tracker: CostTracker, levels: seq<Level>)

  ghost function Callers(trace: seq<Called>): (callers: seq<CostTracker>)
    ensures |callers| == |trace|
  {
    seq(|trace|, i requires 0 <= i < |trace| => trace[i].tracker)
  }

  /** Every callback was called with the cost booked at every level of the chain. */
  ghost predicate AllBooked(trace: seq<Called>, before: seq<Level>, op: string, cost: real) {
    forall i | 0 <= i < |trace| :: trace[i].levels == Booking(before, op, cost)
  }

  ghost function Booking(before: seq<Level>, op: string, cost: real): seq<Level> {
    seq(|before|, i requires 0 <= i < |before| => Recorded(before[i], op, cost))
  }

  lemma TraceAdds(trace: seq<Called>, c: Called, before: seq<Level>, op: string, cost: real)
    requires AllBooked(trace, before, op, cost) && c.levels == Booking(before, op, cost)
    ensures Callers(trace + [c]) == Callers(trace) + [c.tracker]
    ensures AllBooked(trace + [c], before, op, cost)
  {}

  lemma LevelsBooked(whole: seq<CostTracker>, before: seq<Level>, op: string, cost: real)
    requires |whole| == |before| && Booked(whole, before, op, cost, |whole|)
    ensures Levels(whole) == Booking(before, op, cost)
  {}

  /** The callbacks a record calls, and whether the last of them raises: from the top of the chain
      down to the first that raises. */
  ghost function Calls(chain: seq<CostTracker>, cost: real, context: Context, overridden: bool): (seq<CostTracker>, bool) {
    if chain == [] then ([], false)
    else
      var (above, raised) := Calls(chain[1..], cost, context, overridden);
      if raised || chain[0].onCost.None? then (above, raised)
      else (above + [chain[0]], chain[0].onCost.value(cost, context, overridden))
  }

  /** The trackers of a chain that have a callback, the root's first. */
  ghost function Listening(chain: seq<CostTracker>): seq<CostTracker> {
    if chain == [] then []
    else Listening(chain[1..]) + if chain[0].onCost.Some? then [chain[0]] else []
  }

  ghost predicate Raises(t: CostTracker, cost: real, context: Context, overridden: bool) {
    t.onCost.Some? && t.onCost.value(cost, context, overridden)
  }

  /** Callbacks are called from the root down, all of them or up to the first that raises. */
  lemma {:induction false} CalledTopDown(chain: seq<CostTracker>, cost: real, context: Context, overridden: bool)
    ensures var (callers, raised) := Calls(chain, cost, context, overridden);
      && callers <= Listening(chain) && (!raised ==> callers == Listening(chain)) && (raised ==> callers != [])
      && forall i | 0 <= i < |callers| :: Raises(callers[i], cost, context, overridden) <==> raised && i == |callers| - 1
  {
    if chain != [] {
      CalledTopDown(chain[1..], cost, context, overridden);
    }
  }

  ghost function Levels(chain: seq<CostTracker>): (levels: seq<Level>)
    reads chain
    ensures |levels| == |chain| && forall k | 0 <= k < |chain| :: levels[k] == chain[k].State()
  {
    if chain == [] then [] else [chain[0].State()] + Levels(chain[1..])
  }

  // ----- conservation -----

  /** One cost tracked: at which tracker, for which op. */
  datatype Entry = Entry(at: CostTracker, op: string, cost: real)

  /** What the entries cost at t: those tracked at it or at a tracker below it. */
  ghost function Total(ledger: seq<Entry>, t: CostTracker): real {
    if ledger == [] then 0.0
    else
      var last := ledger[|ledger| - 1];
      Total(ledger[..|ledger| - 1], t) + if t in last.at.chain then last.cost else 0.0
  }

  ghost function TotalOf(ledger: seq<Entry>, t: CostTracker, op: string): real {
    if ledger == [] then 0.0
    else
      var last := ledger[|ledger| - 1];
      TotalOf(ledger[..|ledger| - 1], t, op) + if t in last.at.chain && last.op == op then last.cost else 0.0
  }

  ghost function Sum(costs: map<string, real>): real {
    if costs == map[] then 0.0
    else
      var op :| op in costs;
      costs[op] + Sum(costs - {op})
  }

  lemma {:induction false} SumWithout(costs: map<string, real>, op: string)
    requires op in costs
    ensures Sum(costs) == costs[op] + Sum(costs - {op})
    decreases |costs|
  {
    var first :| first in costs && Sum(costs) == costs[first] + Sum(costs - {first});
    if first != op {
      assert costs - {first} - {op} == costs - {op} - {first};
      SumWithout(costs - {first}, op);
      SumWithout(costs - {op}, first);
    }
  }

  lemma SumAdds(costs: map<string, real>, op: string, cost: real)
    ensures Sum(costs[op := Cost(costs, op) + cost]) == Sum(costs) + cost
  {
    var next := costs[op := Cost(costs, op) + cost];
    SumWithout(next, op);
    assert next - {op} == costs - {op};
    if op in costs {
      SumWithout(costs, op);
    } else {
      assert costs - {op} == costs;
    }
  }

  /** t holds what the ledger says was tracked at it or below it. */
  ghost predicate Accounts(t: CostTracker, ledger: seq<Entry>)
    reads t
  {
    && t.spent == Total(ledger, t)
    && (forall op :: Cost(t.costsByOp, op) == TotalOf(ledger, t, op))
    && t.spent == Sum(t.costsByOp)
  }

  /** Tracks a usage and enters it in the ledger: of any trackers that accounted for the ledger each
      still does, those off the chain untouched. */
  method TrackInLedger(t: CostTracker, op: string, usage: Usage, overrideCost: Option<real>, context: Context,
                       ghost all: set<CostTracker>, ghost ledger: seq<Entry>)
    returns (ghost after: seq<Entry>)
    requires t.Valid() && forall u | u in all :: Accounts(u, ledger)
    modifies (set u | u in t.chain), Halts(t.chain)
    ensures after == ledger + [Entry(t, op, if overrideCost.Some? then overrideCost.value else t.pricing(op, usage))]
    ensures forall u | u in all :: Accounts(u, after)
    ensures forall u | u in all && u !in t.chain :: u.State() == old(u.State())
  {
    var cost, _, trace := t.Track(op, usage, overrideCost, context);
    after := ledger + [Entry(t, op, cost)];
    forall u | u in all ensures Accounts(u, after) {
      if u in t.chain {
        var k :| 0 <= k < |t.chain| && t.chain[k] == u;
        assert u.State() == Recorded(old(u.State()), op, cost);
      }
      AccountsOnceMore(u, old(u.State()), t, ledger, op, cost);
    }
  }

  lemma AccountsOnceMore(u: CostTracker, before: Level, t: CostTracker, ledger: seq<Entry>, op: string, cost: real)
    requires before.spent == Total(ledger, u) == Sum(before.costs) && forall o :: Cost(before.costs, o) == TotalOf(ledger, u, o)
    requires u.State() == if u in t.chain then Recorded(before, op, cost) else before
    ensures Accounts(u, ledger + [Entry(t, op, cost)])
  {
    assert (ledger + [Entry(t, op, cost)])[..|ledger|] == ledger;
    SumAdds(before.costs, op, cost);
  }

  /** A new tracker accounts for any ledger of older trackers. */
  method ChildInLedger(t: CostTracker, budget: Option<real>, onCost: Option<Callback>, halt: Event?, ghost ledger: seq<Entry>)
    returns (child: Option<CostTracker>)
    requires t.Valid()
    ensures child.Some? ==> fresh(child.value) && child.value.Valid() && Accounts(child.value, ledger)
    ensures child.Some? ==> child.value.chain == [child.value] + t.chain && child.value.halt == halt
    ensures child.None? <==> budget.Some? && budget.value <= 0.0
  {
    child := t.Child(budget, onCost, halt);
    if child.Some? {
      Unlisted(child.value, ledger);
    }
  }

  lemma {:induction false} Unlisted(t: CostTracker, ledger: seq<Entry>)
    requires forall e | e in ledger :: t !in e.at.chain
    ensures Total(ledger, t) == 0.0 && forall op :: TotalOf(ledger, t, op) == 0.0
  {
    if ledger != [] {
      Unlisted(t, ledger[..|ledger| - 1]);
    }
  }

  // ----- the latch -----

  function RecordedAll(l: Level, costs: seq<(string, real)>): Level {
    if costs == [] then l
    else Recorded(RecordedAll(l, costs[..|costs| - 1]), costs[|costs| - 1].0, costs[|costs| - 1].1)
  }

  /** A level has latched exactly when its spend was over its cap after some record, even when later
      records took it back under. */
  lemma {:induction false} LatchedIfEverExceeded(l: Level, costs: seq<(string, real)>)
    requires !l.Exceeded() && !l.urgent
    ensures RecordedAll(l, costs).budget == l.budget
    ensures RecordedAll(l, costs).urgent <==> exists n :: 0 <= n <= |costs| && RecordedAll(l, costs[..n]).Exceeded()
  {
    assert costs[..|costs|] == costs;
    if costs != [] {
      var front := costs[..|costs| - 1];
      LatchedIfEverExceeded(l, front);
      forall n | 0 <= n <= |front| ensures costs[..n] == front[..n] {}
      assert front[..|front|] == front;
    }
  }

  /** What may happen to a level: a record, or its cap is amended. */
  datatype Change = Records(op: string, cost: real) | Amends(cap: real)

  function Changed(l: Level, c: Change): Level {
    match c
    case Records(op, cost) => Recorded(l, op, cost)
    case Amends(cap) => if cap > 0.0 then l.(budget := Some(cap)) else l
  }

  function ChangedAll(l: Level, changes: seq<Change>): Level {
    if changes == [] then l else Changed(ChangedAll(l, changes[..|changes| - 1]), changes[|changes| - 1])
  }

  /** The n-th change is a record that takes the spend from within the cap there was to it or over it. */
  predicate CrossedAt(l: Level, changes: seq<Change>, n: nat)
    requires n < |changes|
  {
    var before := ChangedAll(l, changes[..n]);
    && changes[n].Records? && before.budget.Some?
    && before.spent < before.budget.value <= before.spent + changes[n].cost
  }

  /** Over any records and amended caps a level latches exactly when some record crossed the cap it had
      then: a cap amended to the spend or under it never latches, nor does a record after that. */
  lemma {:induction false} LatchedIfEverCrossed(l: Level, changes: seq<Change>)
    ensures ChangedAll(l, changes).urgent <==> l.urgent || exists n :: 0 <= n < |changes| && CrossedAt(l, changes, n)
  {
    if changes != [] {
      var front, last := changes[..|changes| - 1], |changes| - 1;
      LatchedIfEverCrossed(l, front);
      forall n | 0 <= n < |front| ensures CrossedAt(l, front, n) <==> CrossedAt(l, changes, n) {
        assert front[..n] == changes[..n];
      }
      assert ChangedAll(l, changes).urgent <==> ChangedAll(l, front).urgent || CrossedAt(l, changes, last);
    }
  }

  // ----- whole sessions -----

  /** What happens in a session: a usage is tracked at one of its trackers, one gets a child, or one's
      cap is amended. */
  datatype Use =
    | Tracks(at: nat, op: string, usage: Usage, overrideCost: Option<real>, context: Context)
    | Adds(under: nat, budget: Option<real>, onCost: Option<Callback>, halt: Event?)
    | Caps(of: nat, newBudget: real)

  /** The halts that a session's uses name. */
  ghost function Named(uses: seq<Use>): set<Event> {
    set u | u in uses && u.Adds? && u.halt != null :: u.halt
  }

  /** How many trackers there are after the uses: a child with a cap that is not positive is refused. */
  function Size(uses: seq<Use>): (n: nat)
    ensures n > 0
  {
    if uses == [] then 1
    else
      var n := Size(uses[..|uses| - 1]);
      match uses[|uses| - 1]
      case Adds(under, budget, _, _) => if under < n && !(budget.Some? && budget.value <= 0.0) then n + 1 else n
      case _ => n
  }

  /** What the uses track, each at its tracker. */
  ghost function LedgerOf(uses: seq<Use>, trackers: seq<CostTracker>): seq<Entry>
    requires Size(uses) <= |trackers|
  {
    if uses == [] then []
    else
      var front, last := uses[..|uses| - 1], uses[|uses| - 1];
      LedgerOf(front, trackers) +
      if last.Tracks? && last.at < Size(front)
      then [Entry(trackers[last.at], last.op,
                  if last.overrideCost.Some? then last.overrideCost.value else trackers[last.at].pricing(last.op, last.usage))]
      else []
  }

  lemma {:induction false} LedgerStays(uses: seq<Use>, trackers: seq<CostTracker>, t: CostTracker)
    requires Size(uses) <= |trackers|
    ensures LedgerOf(uses, trackers + [t]) == LedgerOf(uses, trackers)
  {
    if uses != [] {
      LedgerStays(uses[..|uses| - 1], trackers, t);
    }
  }

  /** Every tracker of a tree that grows from root, whatever sequence of usages is tracked, children
      added and caps amended, ends with exactly what was tracked at it or below it. */
  method Session(root: CostTracker, uses: seq<Use>) returns (trackers: seq<CostTracker>)
    requires root.Valid() && Accounts(root, [])
    modifies root.chain, Halts(root.chain), Named(uses)
    ensures |trackers| == Size(uses) && trackers[0] == root
    ensures forall t | t in trackers :: t.Valid() && Accounts(t, LedgerOf(uses, trackers))
  {
    trackers := [root];
    ghost var ledger := [];
    for i := 0 to |uses|
      invariant |trackers| == Size(uses[..i]) && trackers[0] == root && ledger == LedgerOf(uses[..i], trackers)
      invariant forall t | t in trackers :: t.Valid() && Accounts(t, ledger)
      invariant forall t | t in trackers :: forall u | u in t.chain :: u in root.chain || fresh(u)
      invariant forall t | t in trackers :: Halts(t.chain) <= Halts(root.chain) + Named(uses)
    {
      assert uses[..i + 1][..i] == uses[..i];
      match uses[i]
      case Tracks(at, op, usage, overrideCost, context) =>
        if at < |trackers| {
          var t := trackers[at];
          assert t in trackers;
          ledger := TrackInLedger(t, op, usage, overrideCost, context, (set t | t in trackers), ledger);
        }
      case Adds(under, budget, onCost, halt) =>
        if under < |trackers| {
          var child := ChildInLedger(trackers[under], budget, onCost, halt, ledger);
          if child.Some? {
            assert uses[i] in uses;
            LedgerStays(uses[..i], trackers, child.value);
            trackers := trackers + [child.value];
          }
        }
      case Caps(of, newBudget) =>
        if of < |trackers| {
          assert trackers[of] in trackers && trackers[of] in trackers[of].chain;
          var _ := trackers[of].UpdateBudget(newBudget);
        }
    }
    assert uses[..|uses|] == uses;
  }
}
