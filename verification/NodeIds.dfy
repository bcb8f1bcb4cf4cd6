/** Identities of the steps of a composition tree.

    A step's id is a hash of the chain context it sits in, its kind, its target and its
    occurrence among the earlier steps with the same kind and target. The hash is taken as
    injective: an id is the value it would be hashed from.
 */
module NodeIds {

  /** What tells a step apart from the steps of its chain, before its occurrence. */
  datatype LocalKey = LocalKey(kind: string, target: string)

  datatype Context = Root | Descend(parent: NodeId, boundary: string)

  datatype NodeId = NodeId(context: Context, key: LocalKey, occurrence: nat)

  /** How many of the first n keys equal k. */
  function Earlier(keys: seq<LocalKey>, n: nat, k: LocalKey): nat
    requires n <= |keys|
  {
    if n == 0 then 0 else Earlier(keys, n - 1, k) + if keys[n - 1] == k then 1 else 0
  }

  function IdAt(context: Context, keys: seq<LocalKey>, i: nat): NodeId
    requires i < |keys|
  {
    NodeId(context, keys[i], Earlier(keys, i, keys[i]))
  }

  /** The ids of a chain's steps, in chain order. */
  function Ids(context: Context, keys: seq<LocalKey>): (ids: seq<NodeId>)
    ensures |ids| == |keys|
  {
    seq(|keys|, i requires 0 <= i < |keys| => IdAt(context, keys, i))
  }

  lemma {:induction false} EarlierMonotone(keys: seq<LocalKey>, m: nat, n: nat, k: LocalKey)
    requires m <= n <= |keys|
    ensures Earlier(keys, m, k) <= Earlier(keys, n, k)
    ensures m < n && keys[m] == k ==> Earlier(keys, m, k) < Earlier(keys, n, k)
    decreases n
  {
    if m < n {
      EarlierMonotone(keys, m, n - 1, k);
    }
  }

  /** Within one chain no two steps share an id. */
  lemma {:induction false} IdsDistinct(context: Context, keys: seq<LocalKey>, i: nat, j: nat)
    requires i < j < |keys|
    ensures Ids(context, keys)[i] != Ids(context, keys)[j]
  {
    if keys[i] == keys[j] {
      EarlierMonotone(keys, i, j, keys[i]);
    }
  }

  /** The first position of id in ids, as list.index finds it. */
  function IndexOf(ids: seq<NodeId>, id: NodeId): (i: nat)
    requires id in ids
    ensures i < |ids| && ids[i] == id
    ensures forall j :: 0 <= j < i ==> ids[j] != id
  {
    if ids[0] == id then 0 else IndexOf(ids[1..], id) + 1
  }

  /** A step is found again at its own position. */
  lemma IndexOfOwn(context: Context, keys: seq<LocalKey>, i: nat)
    requires i < |keys|
    ensures Ids(context, keys)[i] in Ids(context, keys)
    ensures IndexOf(Ids(context, keys), Ids(context, keys)[i]) == i
  {
    var ids := Ids(context, keys);
    var j := IndexOf(ids, ids[i]);
    if j < i {
      IdsDistinct(context, keys, j, i);
    }
  }

  // ----- edits of a chain -----

  lemma {:induction false} EarlierInPrefix(a: seq<LocalKey>, b: seq<LocalKey>, n: nat, k: LocalKey)
    requires n <= |a|
    ensures Earlier(a + b, n, k) == Earlier(a, n, k)
  {
    if n > 0 {
      EarlierInPrefix(a, b, n - 1, k);
    }
  }

  lemma {:induction false} EarlierAcross(a: seq<LocalKey>, b: seq<LocalKey>, n: nat, k: LocalKey)
    requires n <= |b|
    ensures Earlier(a + b, |a| + n, k) == Earlier(a, |a|, k) + Earlier(b, n, k)
  {
    if n == 0 {
      EarlierInPrefix(a, b, |a|, k);
    } else {
      EarlierAcross(a, b, n - 1, k);
    }
  }

  lemma {:induction false} EarlierOfOthers(keys: seq<LocalKey>, n: nat, k: LocalKey)
    requires n <= |keys| && k !in keys
    ensures Earlier(keys, n, k) == 0
  {
    if n > 0 {
      EarlierOfOthers(keys, n - 1, k);
    }
  }

  /** Where step i is after a block is inserted at p; read the other way, before it was removed. */
  function Shifted(p: nat, block: nat, i: nat): nat { if i < p then i else i + block }

  lemma EditKeepsCount(a: seq<LocalKey>, block: seq<LocalKey>, b: seq<LocalKey>, i: nat)
    requires i < |a + b| && (a + b)[i] !in block
    ensures Shifted(|a|, |block|, i) < |a + block + b|
    ensures (a + block + b)[Shifted(|a|, |block|, i)] == (a + b)[i]
    ensures Earlier(a + block + b, Shifted(|a|, |block|, i), (a + b)[i]) == Earlier(a + b, i, (a + b)[i])
  {
    var k := (a + b)[i];
    if i < |a| {
      EarlierInPrefix(a, b, i, k);
      EarlierInPrefix(a, block + b, i, k);
      assert a + (block + b) == a + block + b;
    } else {
      EarlierAcross(a, b, i - |a|, k);
      EarlierAcross(a + block, b, i - |a|, k);
      EarlierAcross(a, block, |block|, k);
      EarlierOfOthers(block, |block|, k);
    }
  }

  /** Inserting or removing steps with other keys keeps a step's id, so a cursor saved at the step
      finds it at its new position. */
  lemma EditKeepsStep(context: Context, a: seq<LocalKey>, block: seq<LocalKey>, b: seq<LocalKey>, i: nat)
    requires i < |a + b| && (a + b)[i] !in block
    ensures var j := Shifted(|a|, |block|, i);
      var was, now := Ids(context, a + b), Ids(context, a + block + b);
      && j < |now| && now[j] == was[i]
      && was[i] in now && IndexOf(now, was[i]) == j && IndexOf(was, now[j]) == i
  {
    EditKeepsCount(a, block, b, i);
    IndexOfOwn(context, a + b, i);
    IndexOfOwn(context, a + block + b, Shifted(|a|, |block|, i));
  }

  // ----- the loops that count occurrences -----

  function Seen(seen: map<LocalKey, nat>, k: LocalKey): nat { if k in seen then seen[k] else 0 }

  method ComputeNodeIds(context: Context, keys: seq<LocalKey>) returns (ids: seq<NodeId>)
    ensures ids == Ids(context, keys)
  {
    var seen: map<LocalKey, nat> := map[];
    ids := [];
    for i := 0 to |keys|
      invariant ids == Ids(context, keys)[..i]
      invariant forall k :: Seen(seen, k) == Earlier(keys, i, k)
    {
      var occurrence := Seen(seen, keys[i]);
      seen := seen[keys[i] := occurrence + 1];
      ids := ids + [NodeId(context, keys[i], occurrence)];
    }
  }

  /** The occurrences of a key among a chain's ids are numbered from zero without a gap. */
  lemma {:induction false} IdsOfKey(context: Context, keys: seq<LocalKey>, k: LocalKey, occurrence: nat)
    ensures NodeId(context, k, occurrence) in Ids(context, keys) <==> occurrence < multiset(keys)[k]
    decreases |keys|
  {
    if keys != [] {
      var n := |keys| - 1;
      var front := keys[..n];
      assert keys == front + [keys[n]];
      forall i, x | 0 <= i <= n ensures Earlier(keys, i, x) == Earlier(front, i, x) {
        EarlierInPrefix(front, [keys[n]], i, x);
      }
      assert Ids(context, keys) == Ids(context, front) + [IdAt(context, keys, n)];
      IdsOfKey(context, front, k, occurrence);
      CountsEarlier(front, keys[n]);
    }
  }

  lemma {:induction false} CountsEarlier(keys: seq<LocalKey>, k: LocalKey)
    ensures Earlier(keys, |keys|, k) == multiset(keys)[k]
    decreases |keys|
  {
    if keys != [] {
      var n := |keys| - 1;
      assert keys == keys[..n] + [keys[n]];
      CountsEarlier(keys[..n], k);
      EarlierInPrefix(keys[..n], [keys[n]], n, k);
    }
  }

  // ----- a map's members -----

  /** A member's key tells apart its target and its occurrence. */
  function MemberLocals(targets: seq<string>): seq<LocalKey> {
    seq(|targets|, i requires 0 <= i < |targets| => LocalKey("member", targets[i]))
  }

  /** Permuting a map's members permutes the same, distinct keys: a saved record is matched again by
      its member's target and occurrence. */
  lemma MemberKeysIgnoreOrder(a: seq<string>, b: seq<string>)
    requires multiset(a) == multiset(b)
    ensures var was, now := Ids(Root, MemberLocals(a)), Ids(Root, MemberLocals(b));
      && (forall key :: key in was <==> key in now)
      && |was| == |now|
      && (forall i, j :: 0 <= i < j < |now| ==> now[i] != now[j])
  {
    var was, now := Ids(Root, MemberLocals(a)), Ids(Root, MemberLocals(b));
    assert |a| == |multiset(a)| == |multiset(b)| == |b|;
    forall key ensures key in was <==> key in now {
      if key.context == Root {
        IdsOfKey(Root, MemberLocals(a), key.key, key.occurrence);
        IdsOfKey(Root, MemberLocals(b), key.key, key.occurrence);
        MembersCount(a, key.key);
        MembersCount(b, key.key);
      }
    }
    forall i, j | 0 <= i < j < |now| ensures now[i] != now[j] {
      IdsDistinct(Root, MemberLocals(b), i, j);
    }
  }

  lemma {:induction false} MembersCount(targets: seq<string>, k: LocalKey)
    ensures multiset(MemberLocals(targets))[k] == if k.kind == "member" then multiset(targets)[k.target] else 0
    decreases |targets|
  {
    if targets != [] {
      var n := |targets| - 1;
      assert targets == targets[..n] + [targets[n]];
      assert MemberLocals(targets) == MemberLocals(targets[..n]) + [LocalKey("member", targets[n])];
      MembersCount(targets[..n], k);
    }
  }

  // ----- the text an id is hashed from -----

  function Digits(n: nat): (s: string)
    ensures s != [] && (|s| == 1 <==> n < 10) && forall c | c in s :: '0' <= c <= '9'
  {
    var digit := [('0' as int + n % 10) as char];
    if n < 10 then digit else Digits(n / 10) + digit
  }

  function IdText(context: string, kind: string, target: string, occurrence: nat): string {
    context + "|" + kind + "|" + Digits(occurrence) + "|" + target
  }

  /** The text is the chain context, the kind, the occurrence in decimal and the target, in that order. */
  lemma IdTextReads(context: string, kind: string, target: string)
    ensures IdText(context, kind, target, 0) == context + "|" + kind + "|0|" + target
    ensures IdText(context, kind, target, 12) == context + "|" + kind + "|12|" + target
  {
    assert Digits(0) == "0" && Digits(1) == "1";
    assert Digits(12) == Digits(1) + "2" == "12";
  }

  function ContextText(parent: string, boundary: string): string { parent + "|" + boundary }

  lemma FirstBar(a: string, x: string)
    requires '|' !in a
    ensures var s := a + "|" + x;
      && s[|a|] == '|' && (forall i :: 0 <= i < |a| ==> s[i] != '|')
      && s[..|a|] == a && s[|a| + 1..] == x
  {}

  /** A text is split at its first bar in one way. */
  lemma SplitOnce(a: string, b: string, x: string, y: string)
    requires '|' !in a && '|' !in b && a + "|" + x == b + "|" + y
    ensures a == b && x == y
  {
    FirstBar(a, x);
    FirstBar(b, y);
  }

  lemma {:induction false} DigitsInjective(m: nat, n: nat)
    requires Digits(m) == Digits(n)
    ensures m == n
    decreases m
  {
    var s := Digits(m);
    assert s[|s| - 1] == ('0' as int + m % 10) as char;
    assert s[|s| - 1] == ('0' as int + n % 10) as char;
    if m >= 10 && n >= 10 {
      assert Digits(m / 10) == s[..|s| - 1] == Digits(n / 10);
      DigitsInjective(m / 10, n / 10);
    }
  }

  /** Different inputs hash different texts: a target may hold any character, since it comes last. */
  lemma IdTextInjective(c1: string, k1: string, t1: string, o1: nat, c2: string, k2: string, t2: string, o2: nat)
    requires '|' !in c1 && '|' !in k1 && '|' !in c2 && '|' !in k2
    requires IdText(c1, k1, t1, o1) == IdText(c2, k2, t2, o2)
    ensures c1 == c2 && k1 == k2 && t1 == t2 && o1 == o2
  {
    var u, v := Digits(o1) + "|" + t1, Digits(o2) + "|" + t2;
    assert IdText(c1, k1, t1, o1) == c1 + "|" + (k1 + "|" + u);
    assert IdText(c2, k2, t2, o2) == c2 + "|" + (k2 + "|" + v);
    SplitOnce(c1, c2, k1 + "|" + u, k2 + "|" + v);
    SplitOnce(k1, k2, u, v);
    SplitOnce(Digits(o1), Digits(o2), t1, t2);
    DigitsInjective(o1, o2);
  }

  /** No id shares its text with a chain context. */
  lemma ContextTextApart(parent: string, boundary: string, context: string, kind: string, target: string, occurrence: nat)
    requires '|' !in parent && '|' !in boundary && '|' !in context && '|' !in kind
    ensures ContextText(parent, boundary) != IdText(context, kind, target, occurrence)
  {
    var rest := kind + "|" + (Digits(occurrence) + "|" + target);
    assert IdText(context, kind, target, occurrence) == context + "|" + rest;
    assert rest[|kind|] == '|';
    FirstBar(parent, boundary);
    FirstBar(context, rest);
  }
}
