/** Locality of linearizability: the law that src/porcupine/model.go:28-31
    demands of a partition function, for partitions by key.  A history is
    linearizable against independent copies of an object, one per key, exactly
    when each key's part is linearizable against one copy. */
module Locality {
  import opened Linearizability
  import opened Histories

  // ---- independent copies of an object -----------------------------------------

  function Copy<S, K>(s: map<K, S>, k: K, init: S): S {
    if k in s then s[k] else init
  }

  ghost function Product<S, V, K(!new)>(m: Model<S, V>, key: V -> K): Model<map<K, S>, V> {
    Model(map[],
          (s: map<K, S>, input: V, output: V) =>
            var (ok, t) := m.step(Copy(s, key(input), m.init), input, output);
            (ok, s[key(input) := t]),
          (s: map<K, S>, t: map<K, S>) => s == t)
  }

  /** The operations whose key is in `keys`, in order. */
  function Select<V, K(==)>(key: V -> K, keys: set<K>, ops: seq<Operation<V>>): seq<Operation<V>> {
    if ops == [] then []
    else if key(ops[0].input) in keys then [ops[0]] + Select(key, keys, ops[1..])
    else Select(key, keys, ops[1..])
  }

  function Group<V, K(==)>(key: V -> K, k: K, ops: seq<Operation<V>>): seq<Operation<V>> {
    Select(key, {k}, ops)
  }

  lemma {:induction false} SelectCount<V(!new), K>(key: V -> K, keys: set<K>, ops: seq<Operation<V>>, x: Operation<V>)
    ensures multiset(Select(key, keys, ops))[x] == if key(x.input) in keys then multiset(ops)[x] else 0
  {
    if ops != [] {
      SelectCount(key, keys, ops[1..], x);
      assert ops == [ops[0]] + ops[1..];
    }
  }

  lemma {:induction false} SelectKeepsMultiset<V(!new), K>(key: V -> K, keys: set<K>, a: seq<Operation<V>>, b: seq<Operation<V>>)
    requires multiset(a) == multiset(b)
    ensures multiset(Select(key, keys, a)) == multiset(Select(key, keys, b))
  {
    var p, q := multiset(Select(key, keys, a)), multiset(Select(key, keys, b));
    forall x: Operation<V>
      ensures p[x] == q[x]
    {
      SelectCount(key, keys, a, x);
      SelectCount(key, keys, b, x);
    }
    assert p == q;
  }

  lemma {:induction false} SelectMembers<V(!new), K>(key: V -> K, keys: set<K>, ops: seq<Operation<V>>)
    ensures forall x :: x in Select(key, keys, ops) <==> x in ops && key(x.input) in keys
  {
    if ops != [] {
      SelectMembers(key, keys, ops[1..]);
      assert ops == [ops[0]] + ops[1..];
    }
  }

  // ---- a legal order of everything is legal key by key ----------------------------

  lemma {:induction false} SelectRealTime<V(!new), K>(key: V -> K, keys: set<K>, order: seq<Operation<V>>)
    requires RealTimeOrder(order)
    ensures RealTimeOrder(Select(key, keys, order))
  {
    if order != [] {
      var rest := order[1..];
      assert forall i, j :: 0 <= i < j < |rest| ==> rest[i] == order[i + 1] && rest[j] == order[j + 1];
      SelectRealTime(key, keys, rest);
      SelectMembers(key, keys, rest);
      var r := Select(key, keys, rest);
      forall j | 0 <= j < |r|
        ensures order[0].call <= r[j].ret
      {
        assert r[j] in Select(key, keys, rest);
        var k :| 0 <= k < |rest| && rest[k] == r[j];
        assert order[k + 1] == r[j];
      }
    }
  }

  ghost predicate LegalForAll<S, V, K(!new)>(m: Model<S, V>, key: V -> K, s: map<K, S>, order: seq<Operation<V>>) {
    forall k :: Legal(m, Copy(s, k, m.init), Group(key, k, order))
  }

  lemma {:induction false} LegalByKey<S, V(!new), K(!new)>(m: Model<S, V>, key: V -> K, s: map<K, S>, order: seq<Operation<V>>)
    ensures Legal(Product(m, key), s, order) <==> LegalForAll(m, key, s, order)
    decreases |order|
  {
    if order != [] {
      var op, rest := order[0], order[1..];
      var k0 := key(op.input);
      var (ok, t) := m.step(Copy(s, k0, m.init), op.input, op.output);
      var s' := s[k0 := t];
      LegalByKey(m, key, s', rest);
      assert Group(key, k0, order) == [op] + Group(key, k0, rest);
      assert Legal(m, Copy(s, k0, m.init), Group(key, k0, order)) <==> ok && Legal(m, t, Group(key, k0, rest)) by {
        assert ([op] + Group(key, k0, rest))[1..] == Group(key, k0, rest);
      }
      forall k | k != k0
        ensures Legal(m, Copy(s, k, m.init), Group(key, k, order)) <==> Legal(m, Copy(s', k, m.init), Group(key, k, rest))
      {
      }
    }
  }

  lemma {:induction false} GlobalToKey<S, V(!new), K(!new)>(m: Model<S, V>, key: V -> K, ops: seq<Operation<V>>, k: K)
    requires LinearizableOps(Product(m, key), ops)
    ensures LinearizableOps(m, Group(key, k, ops))
  {
    var order :| Linearizes(Product(m, key), ops, order);
    LegalByKey(m, key, map[], order);
    SelectKeepsMultiset(key, {k}, order, ops);
    SelectRealTime(key, {k}, order);
    assert Linearizes(m, Group(key, k, ops), Group(key, k, order));
  }

  // ---- linearization points ---------------------------------------------------------

  /** An operation and the moment at which it takes effect. */
  datatype Stamped<V> = Stamped(op: Operation<V>, at: int)

  /** Effects happen while the operation runs, and in the given order. */
  ghost predicate Timed<V>(ts: seq<Stamped<V>>) {
    && (forall i :: 0 <= i < |ts| ==> ts[i].op.call <= ts[i].at <= ts[i].op.ret)
    && (forall i, j :: 0 <= i < j < |ts| ==> ts[i].at <= ts[j].at)
  }

  function Strip<V>(ts: seq<Stamped<V>>): (order: seq<Operation<V>>)
    ensures |order| == |ts| && forall i :: 0 <= i < |ts| ==> order[i] == ts[i].op
  {
    seq(|ts|, i requires 0 <= i < |ts| => ts[i].op)
  }

  lemma {:induction false} TimedIsRealTime<V(!new)>(ts: seq<Stamped<V>>)
    requires Timed(ts)
    ensures RealTimeOrder(Strip(ts))
  {
  }

  function Latest<V>(order: seq<Operation<V>>, n: nat): (t: int)
    requires n < |order|
    ensures forall i :: 0 <= i <= n ==> order[i].call <= t
    ensures exists i :: 0 <= i <= n && order[i].call == t
  {
    if n == 0 then order[0].call
    else
      var t := Latest(order, n - 1);
      if t < order[n].call then order[n].call else t
  }

  function Stamp<V>(order: seq<Operation<V>>): (ts: seq<Stamped<V>>)
    ensures |ts| == |order| && Strip(ts) == order
    ensures forall i :: 0 <= i < |order| ==> ts[i].at == Latest(order, i)
  {
    seq(|order|, i requires 0 <= i < |order| => Stamped(order[i], Latest(order, i)))
  }

  lemma {:induction false} LatestGrows<V(!new)>(order: seq<Operation<V>>, i: nat, j: nat)
    requires i <= j < |order|
    ensures Latest(order, i) <= Latest(order, j)
  {
    if i < j {
      LatestGrows(order, i, j - 1);
    }
  }

  lemma {:induction false} LatestInTime<V(!new)>(order: seq<Operation<V>>, i: nat)
    requires RealTimeOrder(order) && i < |order| && order[i].call <= order[i].ret
    ensures order[i].call <= Latest(order, i) <= order[i].ret
  {
  }

  /** An order that respects real time has linearization points: each operation
      takes effect at the latest call so far. */
  lemma {:induction false} StampIsTimed<V(!new)>(order: seq<Operation<V>>)
    requires RealTimeOrder(order)
    requires forall i :: 0 <= i < |order| ==> order[i].call <= order[i].ret
    ensures Timed(Stamp(order))
  {
    hide RealTimeOrder, Latest;
    var ts := Stamp(order);
    forall i | 0 <= i < |ts|
      ensures ts[i].op.call <= ts[i].at <= ts[i].op.ret
    {
      assert ts[i].op == order[i];
      LatestInTime(order, i);
    }
    forall i, j | 0 <= i < j < |ts|
      ensures ts[i].at <= ts[j].at
    {
      LatestGrows(order, i, j);
    }
  }

  // ---- merging ------------------------------------------------------------------------

  function Merge<V>(a: seq<Stamped<V>>, b: seq<Stamped<V>>): seq<Stamped<V>>
    decreases |a| + |b|
  {
    if a == [] then b
    else if b == [] then a
    else if a[0].at <= b[0].at then [a[0]] + Merge(a[1..], b)
    else [b[0]] + Merge(a, b[1..])
  }

  lemma {:induction false} MultisetCons<T>(s: seq<T>)
    requires s != []
    ensures multiset(s) == multiset{s[0]} + multiset(s[1..])
  {
    assert s == [s[0]] + s[1..];
  }

  lemma {:induction false} MergeMultiset<V(!new)>(a: seq<Stamped<V>>, b: seq<Stamped<V>>)
    ensures multiset(Merge(a, b)) == multiset(a) + multiset(b)
    decreases |a| + |b|
  {
    if a != [] && b != [] {
      if a[0].at <= b[0].at {
        MergeMultiset(a[1..], b);
        MultisetCons(a);
        MultisetCons(Merge(a, b));
        assert Merge(a, b)[1..] == Merge(a[1..], b);
      } else {
        MergeMultiset(a, b[1..]);
        MultisetCons(b);
        MultisetCons(Merge(a, b));
        assert Merge(a, b)[1..] == Merge(a, b[1..]);
      }
    }
  }

  lemma {:induction false} TimedCons<V(!new)>(t: Stamped<V>, ts: seq<Stamped<V>>)
    requires Timed(ts) && t.op.call <= t.at <= t.op.ret
    requires forall x :: x in ts ==> t.at <= x.at
    ensures Timed([t] + ts)
  {
    var r := [t] + ts;
    assert forall i :: 0 < i < |r| ==> r[i] == ts[i - 1] && r[i] in ts;
  }

  lemma {:induction false} MergeTimed<V(!new)>(a: seq<Stamped<V>>, b: seq<Stamped<V>>)
    requires Timed(a) && Timed(b)
    ensures Timed(Merge(a, b))
    decreases |a| + |b|
  {
    if a != [] && b != [] {
      if a[0].at <= b[0].at {
        TimedTail(a);
        MergeTimed(a[1..], b);
        MergeLater(a[1..], b, a[0].at);
        TimedCons(a[0], Merge(a[1..], b));
      } else {
        TimedTail(b);
        MergeTimed(a, b[1..]);
        MergeLater(a, b[1..], b[0].at);
        TimedCons(b[0], Merge(a, b[1..]));
      }
    }
  }

  lemma {:induction false} TimedTail<V(!new)>(a: seq<Stamped<V>>)
    requires Timed(a) && a != []
    ensures Timed(a[1..])
    ensures forall x :: x in a ==> a[0].at <= x.at
  {
  }

  lemma {:induction false} MergeLater<V(!new)>(a: seq<Stamped<V>>, b: seq<Stamped<V>>, at: int)
    requires forall x :: x in a ==> at <= x.at
    requires forall x :: x in b ==> at <= x.at
    ensures forall x :: x in Merge(a, b) ==> at <= x.at
  {
    MergeMultiset(a, b);
    forall x | x in Merge(a, b)
      ensures at <= x.at
    {
      assert x in multiset(Merge(a, b));
      assert x in multiset(a) + multiset(b);
    }
  }

  /** Merging two orders without common keys keeps each key's order. */
  lemma {:induction false} MergeKeepsGroups<V(!new), K>(key: V -> K, k: K, a: seq<Stamped<V>>, b: seq<Stamped<V>>)
    requires Group(key, k, Strip(a)) == [] || Group(key, k, Strip(b)) == []
    ensures Group(key, k, Strip(Merge(a, b))) == Group(key, k, Strip(a)) + Group(key, k, Strip(b))
    decreases |a| + |b|
  {
    if a != [] && b != [] {
      if a[0].at <= b[0].at {
        StripCons(key, k, a);
        MergeKeepsGroups(key, k, a[1..], b);
        StripCons(key, k, Merge(a, b));
        assert Merge(a, b)[1..] == Merge(a[1..], b);
        Reassociate(if key(a[0].op.input) == k then [a[0].op] else [], Group(key, k, Strip(a[1..])), Group(key, k, Strip(b)));
      } else {
        StripCons(key, k, b);
        MergeKeepsGroups(key, k, a, b[1..]);
        StripCons(key, k, Merge(a, b));
        assert Merge(a, b)[1..] == Merge(a, b[1..]);
        MoveAcross(if key(b[0].op.input) == k then [b[0].op] else [], Group(key, k, Strip(a)), Group(key, k, Strip(b[1..])));
      }
    }
  }

  lemma {:induction false} Reassociate<T>(x: seq<T>, y: seq<T>, z: seq<T>)
    ensures x + (y + z) == (x + y) + z
  {
  }

  lemma {:induction false} MoveAcross<T>(x: seq<T>, y: seq<T>, z: seq<T>)
    requires y == [] || x + z == []
    ensures x + (y + z) == y + (x + z)
  {
  }

  lemma {:induction false} StripCons<V(!new), K>(key: V -> K, k: K, a: seq<Stamped<V>>)
    requires a != []
    ensures Group(key, k, Strip(a)) ==
              (if key(a[0].op.input) == k then [a[0].op] else []) + Group(key, k, Strip(a[1..]))
  {
    assert Strip(a)[1..] == Strip(a[1..]);
  }

  // ---- from the keys to the whole -------------------------------------------------------

  lemma {:induction false} StripHead<V>(a: seq<Stamped<V>>)
    requires a != []
    ensures multiset(Strip(a)) == multiset{a[0].op} + multiset(Strip(a[1..]))
  {
    MultisetCons(Strip(a));
    assert Strip(a)[1..] == Strip(a[1..]);
  }

  lemma {:induction false} StripMerge<V>(a: seq<Stamped<V>>, b: seq<Stamped<V>>)
    ensures multiset(Strip(Merge(a, b))) == multiset(Strip(a)) + multiset(Strip(b))
    decreases |a| + |b|
  {
    if a != [] && b != [] {
      StripHead(Merge(a, b));
      if a[0].at <= b[0].at {
        StripMerge(a[1..], b);
        StripHead(a);
        assert Merge(a, b)[1..] == Merge(a[1..], b);
      } else {
        StripMerge(a, b[1..]);
        StripHead(b);
        assert Merge(a, b)[1..] == Merge(a, b[1..]);
      }
    }
  }

  /** A merged order of all operations whose key is in `keys`. */
  ghost predicate Merged<S, V, K(!new)>(m: Model<S, V>, key: V -> K, keys: set<K>, ops: seq<Operation<V>>, ts: seq<Stamped<V>>) {
    && Timed(ts)
    && multiset(Strip(ts)) == multiset(Select(key, keys, ops))
    && forall k :: Legal(m, m.init, Group(key, k, Strip(ts)))
  }

  lemma {:induction false} SelectSplit<V(!new), K>(key: V -> K, keys: set<K>, k: K, ops: seq<Operation<V>>)
    requires k in keys
    ensures multiset(Select(key, keys, ops)) == multiset(Select(key, keys - {k}, ops)) + multiset(Group(key, k, ops))
  {
    var p, q := multiset(Select(key, keys, ops)), multiset(Select(key, keys - {k}, ops)) + multiset(Group(key, k, ops));
    forall x: Operation<V>
      ensures p[x] == q[x]
    {
      SelectCount(key, keys, ops, x);
      SelectCount(key, keys - {k}, ops, x);
      SelectCount(key, {k}, ops, x);
    }
    assert p == q;
  }

  lemma {:induction false} NoGroup<V(!new), K>(key: V -> K, keys: set<K>, k: K, ops: seq<Operation<V>>, order: seq<Operation<V>>)
    requires multiset(order) == multiset(Select(key, keys, ops)) && k !in keys
    ensures Group(key, k, order) == []
  {
    SelectMembers(key, keys, ops);
    forall x | x in order
      ensures key(x.input) !in {k}
    {
      assert x in multiset(order);
      assert x in Select(key, keys, ops);
    }
    SelectNothing(key, {k}, order);
  }

  lemma {:induction false} SelectNothing<V(!new), K>(key: V -> K, keys: set<K>, ops: seq<Operation<V>>)
    requires forall x :: x in ops ==> key(x.input) !in keys
    ensures Select(key, keys, ops) == []
  {
    if ops != [] {
      assert forall x :: x in ops[1..] ==> x in ops;
      SelectNothing(key, keys, ops[1..]);
    }
  }

  lemma {:induction false} GroupStable<V(!new), K>(key: V -> K, k: K, order: seq<Operation<V>>)
    requires forall x :: x in order ==> key(x.input) == k
    ensures Group(key, k, order) == order
  {
    if order != [] {
      assert forall x :: x in order[1..] ==> x in order;
      GroupStable(key, k, order[1..]);
      assert order == [order[0]] + order[1..];
    }
  }

  lemma {:induction false} MergeAll<S, V(!new), K(!new)>(m: Model<S, V>, key: V -> K, keys: set<K>, ops: seq<Operation<V>>)
    returns (ts: seq<Stamped<V>>)
    requires Forward(ops)
    requires forall k :: k in keys ==> LinearizableOps(m, Group(key, k, ops))
    ensures Merged(m, key, keys, ops, ts)
    decreases keys
  {
    if keys == {} {
      ts := [];
      SelectNothing(key, keys, ops);
    } else {
      var k :| k in keys;
      var rest := MergeAll(m, key, keys - {k}, ops);
      assert LinearizableOps(m, Group(key, k, ops));
      var order :| Linearizes(m, Group(key, k, ops), order);
      ts := Merge(Stamp(order), rest);
      MergeOneMore(m, key, keys, k, ops, order, rest);
    }
  }

  lemma {:induction false} MergeOneMore<S, V(!new), K(!new)>(m: Model<S, V>, key: V -> K, keys: set<K>, k: K, ops: seq<Operation<V>>,
                                          order: seq<Operation<V>>, rest: seq<Stamped<V>>)
    requires Forward(ops) && k in keys && Merged(m, key, keys - {k}, ops, rest)
    requires Linearizes(m, Group(key, k, ops), order)
    ensures Merged(m, key, keys, ops, Merge(Stamp(order), rest))
  {
    var own := Stamp(order);
    KeyOrder(key, k, ops, order);
    StampIsTimed(order);
    MergeTimed(own, rest);
    StripMerge(own, rest);
    SelectSplit(key, keys, k, ops);
    forall j
      ensures Legal(m, m.init, Group(key, j, Strip(Merge(own, rest))))
    {
      MergedGroup(m, key, keys, k, ops, order, rest, j);
    }
  }

  lemma {:induction false} KeyOrder<V(!new), K>(key: V -> K, k: K, ops: seq<Operation<V>>, order: seq<Operation<V>>)
    requires Forward(ops) && multiset(order) == multiset(Group(key, k, ops))
    ensures forall x :: x in order ==> key(x.input) == k && x in ops
    ensures forall i :: 0 <= i < |order| ==> order[i].call <= order[i].ret
    ensures Group(key, k, order) == order
  {
    SelectMembers(key, {k}, ops);
    forall x | x in order
      ensures key(x.input) == k && x in ops
    {
      assert x in multiset(order);
      assert x in Group(key, k, ops);
    }
    GroupStable(key, k, order);
  }

  lemma {:induction false} MergedGroup<S, V(!new), K(!new)>(m: Model<S, V>, key: V -> K, keys: set<K>, k: K, ops: seq<Operation<V>>,
                                   order: seq<Operation<V>>, rest: seq<Stamped<V>>, j: K)
    requires k in keys && Merged(m, key, keys - {k}, ops, rest)
    requires Legal(m, m.init, order)
    requires forall x :: x in order ==> key(x.input) == k
    ensures Legal(m, m.init, Group(key, j, Strip(Merge(Stamp(order), rest))))
  {
    hide Merge, Select, Legal, Latest, Timed;
    var own := Stamp(order);
    if j == k {
      GroupStable(key, k, order);
      NoGroup(key, keys - {k}, k, ops, Strip(rest));
    } else {
      SelectNothing(key, {j}, order);
    }
    MergeKeepsGroups(key, j, own, rest);
    assert Group(key, j, Strip(own)) + [] == Group(key, j, Strip(own));
    assert [] + Group(key, j, Strip(rest)) == Group(key, j, Strip(rest));
  }

  ghost function KeysOf<V, K>(key: V -> K, ops: seq<Operation<V>>): set<K> {
    set op | op in ops :: key(op.input)
  }

  lemma {:induction false} SelectEverything<V(!new), K>(key: V -> K, keys: set<K>, ops: seq<Operation<V>>)
    requires forall op :: op in ops ==> key(op.input) in keys
    ensures Select(key, keys, ops) == ops
  {
    if ops != [] {
      assert forall op :: op in ops[1..] ==> op in ops;
      SelectEverything(key, keys, ops[1..]);
      assert ops == [ops[0]] + ops[1..];
    }
  }

  lemma {:induction false} KeysToGlobal<S, V(!new), K(!new)>(m: Model<S, V>, key: V -> K, ops: seq<Operation<V>>)
    requires Forward(ops)
    requires forall k :: k in KeysOf(key, ops) ==> LinearizableOps(m, Group(key, k, ops))
    ensures LinearizableOps(Product(m, key), ops)
  {
    var keys := KeysOf(key, ops);
    var ts := MergeAll(m, key, keys, ops);
    var order := Strip(ts);
    forall op | op in ops
      ensures key(op.input) in keys
    {
    }
    SelectEverything(key, keys, ops);
    TimedIsRealTime(ts);
    assert LegalForAll(m, key, map[], order);
    LegalByKey(m, key, map[], order);
    assert Linearizes(Product(m, key), ops, order);
  }

  /** Locality, both ways. */
  lemma {:induction false} LocalityTheorem<S, V(!new), K(!new)>(m: Model<S, V>, key: V -> K, ops: seq<Operation<V>>)
    requires Forward(ops)
    ensures LinearizableOps(Product(m, key), ops) <==>
            forall k :: k in KeysOf(key, ops) ==> LinearizableOps(m, Group(key, k, ops))
  {
    if LinearizableOps(Product(m, key), ops) {
      forall k | k in KeysOf(key, ops)
        ensures LinearizableOps(m, Group(key, k, ops))
      {
        GlobalToKey(m, key, ops, k);
      }
    }
    if forall k :: k in KeysOf(key, ops) ==> LinearizableOps(m, Group(key, k, ops)) {
      KeysToGlobal(m, key, ops);
    }
  }
}
