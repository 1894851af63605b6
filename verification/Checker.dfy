/** The linearizability checker of src/porcupine/checker.go:57-248, statement by
    statement: building the linked entries, the memo table, and the backtracking
    search, proved against `Linearizable`. */
module Checker {
  import opened Collections
  import opened Linearizability
  import opened Exploration
  import opened SearchInvariant
  import opened DancingList
  import opened Bitset

  // ---- building the list -----------------------------------------------------

  method InsertBefore<V(0)>(n: Node<V>, mark: Node?<V>) returns (r: Node<V>)
    requires mark != null ==> mark != n && mark.prev != n && mark.prev != mark
    modifies n
    modifies if mark == null then {} else {mark}
    modifies if mark == null || mark.prev == null then {} else {mark.prev}
    ensures r == n
    ensures mark == null ==> n.next == old(n.next) && n.prev == old(n.prev)
    ensures mark != null ==> mark.prev == n && n.next == mark && mark.next == old(mark.next)
    ensures mark != null && old(mark.prev) != null ==> n.prev == old(mark.prev) && old(mark.prev).next == n
    ensures mark != null && old(mark.prev) == null ==> n.prev == old(n.prev)
  {
    if mark != null {
      var beforeMark := mark.prev;
      mark.prev := n;
      n.next := mark;
      if beforeMark != null {
        n.prev := beforeMark;
        beforeMark.next := n;
      }
    }
    return n;
  }

  /** ns lists the nodes of the last entries of h, last entry first. */
  ghost predicate Suffix<V(0)>(h: seq<Entry<V>>, ns: seq<Node<V>>)
    requires WellFormed(h)
  {
    && |ns| <= |h|
    && Distinct(ns)
    && forall j :: 0 <= j < |ns| ==> IsNodeOf(h, ns, j)
  }

  ghost predicate IsNodeOf<V(0)>(h: seq<Entry<V>>, ns: seq<Node<V>>, j: nat)
    requires WellFormed(h) && j < |ns| <= |h|
  {
    var e := h[|h| - 1 - j];
    && ns[j].value == e.value
    && ns[j].id == e.id
    && (e.kind == Return ==> ns[j].pair == null)
    && (e.kind == Call ==>
          0 <= |h| - 1 - ReturnAt(h, e.id) < |ns| && ns[j].pair == ns[|h| - 1 - ReturnAt(h, e.id)])
  }

  /** `next` leads back in ns, `prev` forward; the ends are nil. */
  ghost predicate Chained<V(0)>(ns: seq<Node<V>>)
    reads ns
  {
    && (forall j :: 0 < j < |ns| ==> ns[j].next == ns[j - 1])
    && (forall j :: 0 <= j < |ns| - 1 ==> ns[j].prev == ns[j + 1])
    && (ns != [] ==> ns[0].next == null && ns[|ns| - 1].prev == null)
  }

  ghost function Front<V(0)>(ns: seq<Node<V>>): Node?<V> {
    if ns == [] then null else ns[|ns| - 1]
  }

  ghost predicate Returns<V(0)>(h: seq<Entry<V>>, ns: seq<Node<V>>, pairs: map<int, Node<V>>)
    requires WellFormed(h)
  {
    |ns| <= |h| &&
    forall id: nat :: id < Ops(h) && 0 <= |h| - 1 - ReturnAt(h, id) < |ns| ==>
      id in pairs && pairs[id] == ns[|h| - 1 - ReturnAt(h, id)]
  }

  method MakeLinkedEntries<V(0)>(entries: seq<Entry<V>>) returns (root: Node?<V>, ghost ns: seq<Node<V>>)
    requires WellFormed(entries)
    ensures |ns| == |entries| && Suffix(entries, ns) && Chained(ns) && root == Front(ns)
    ensures fresh(ns)
  {
    root := null;
    ns := [];
    var pairs: map<int, Node<V>> := map[];
    for i := |entries| downto 0
      invariant |ns| == |entries| - i
      invariant Suffix(entries, ns) && Returns(entries, ns, pairs)
      invariant Chained(ns) && root == Front(ns)
      invariant fresh(ns)
    {
      var elem := entries[i];
      var entry;
      ghost var pairs0 := pairs;
      if elem.kind == Return {
        entry := new Node(elem.value, null, elem.id);
        pairs := pairs[elem.id := entry];
      } else {
        entry := new Node(elem.value, if elem.id in pairs then pairs[elem.id] else null, elem.id);
      }
      Grow(entries, ns, pairs0, entry);
      GrowReturns(entries, ns, pairs0, pairs, entry);
      Prepend(entry, root, ns);
      ns := ns + [entry];
      root := entry;
    }
  }

  method Prepend<V(0)>(entry: Node<V>, root: Node?<V>, ghost ns: seq<Node<V>>)
    requires Distinct(ns) && Chained(ns) && root == Front(ns)
    requires entry !in ns && entry.next == null && entry.prev == null
    modifies entry, ns
    ensures Chained(ns + [entry])
  {
    ghost var ns' := ns + [entry];
    assert forall j :: 0 <= j < |ns| ==> ns'[j] == ns[j];
    if |ns| > 1 {
      assert ns[|ns| - 1].next == ns[|ns| - 2];
    }
    var _ := InsertBefore(entry, root);
  }

  /** One more entry in front. */
  lemma {:induction false} Grow<V(0)>(h: seq<Entry<V>>, ns: seq<Node<V>>, pairs: map<int, Node<V>>, entry: Node<V>)
    requires WellFormed(h) && |ns| < |h| && Suffix(h, ns) && Returns(h, ns, pairs) && entry !in ns
    requires var e := h[|h| - 1 - |ns|];
             && entry.value == e.value && entry.id == e.id
             && entry.pair == if e.kind == Call && e.id in pairs then pairs[e.id] else null
    ensures Suffix(h, ns + [entry])
  {
    var i := |h| - 1 - |ns|;
    var e, ns' := h[i], ns + [entry];
    assert EntryOk(h, i);
    assert OpOk(h, e.id);
    assert IsNodeOf(h, ns', |ns|);
    forall j | 0 <= j < |ns|
      ensures IsNodeOf(h, ns', j)
    {
      assert IsNodeOf(h, ns, j);
    }
  }

  lemma {:induction false} GrowReturns<V(0)>(h: seq<Entry<V>>, ns: seq<Node<V>>, pairs: map<int, Node<V>>, pairs': map<int, Node<V>>, entry: Node<V>)
    requires WellFormed(h) && |ns| < |h| && Returns(h, ns, pairs)
    requires var e := h[|h| - 1 - |ns|];
             pairs' == if e.kind == Return then pairs[e.id := entry] else pairs
    ensures Returns(h, ns + [entry], pairs')
  {
    var ns' := ns + [entry];
    forall id: nat | id < Ops(h) && 0 <= |h| - 1 - ReturnAt(h, id) < |ns'|
      ensures id in pairs' && pairs'[id] == ns'[|h| - 1 - ReturnAt(h, id)]
    {
      var r := ReturnAt(h, id);
      assert OpOk(h, id);
      if r != |h| - 1 - |ns| {
        assert pairs[id] == ns[|h| - 1 - r];
        assert EntryOk(h, |h| - 1 - |ns|);
      }
    }
  }

  method ListLength<V(0)>(n: Node?<V>, ghost ns: seq<Node<V>>) returns (l: nat)
    requires Chained(ns) && n == Front(ns)
    ensures l == |ns|
  {
    l := 0;
    var node := n;
    while node != null
      invariant l <= |ns|
      invariant node == Front(ns[..|ns| - l])
      decreases |ns| - l
    {
      node := node.next;
      l := l + 1;
    }
  }

  // ---- the memo table --------------------------------------------------------

  datatype CacheEntry<S> = CacheEntry(linearized: Words, state: S)

  type Cache<S> = map<Word, seq<CacheEntry<S>>>

  ghost predicate Cached<S>(cache: Cache<S>, e: CacheEntry<S>) {
    HashOf(e.linearized) in cache && e in cache[HashOf(e.linearized)]
  }

  ghost function Meaning<S>(e: CacheEntry<S>): Config<S> {
    Config(Members(e.linearized), e.state)
  }

  /** The table holds the configurations of `seen`, each in the bucket of its
      hash, as bit sets of `chunks` words. */
  ghost predicate Holds<S(!new)>(cache: Cache<S>, seen: set<Config<S>>, chunks: nat) {
    && (forall w, e :: w in cache && e in cache[w] ==>
          |e.linearized| == chunks && HashOf(e.linearized) == w && Meaning(e) in seen)
    && (forall c :: c in seen ==> exists e :: Cached(cache, e) && Meaning(e) == c)
  }

  ghost predicate Known<S(!new), V(!new)>(model: Model<S, V>, seen: set<Config<S>>, c: Config<S>) {
    exists d :: d in seen && Same(model, c, d)
  }

  ghost predicate Same<S, V>(model: Model<S, V>, c: Config<S>, d: Config<S>) {
    c.done == d.done && model.equal(c.state, d.state)
  }

  /** Looking in one bucket answers for the whole table. */
  method CacheContains<S(!new), V(!new)>(model: Model<S, V>, cache: Cache<S>, entry: array<Word>, state: S,
                                         ghost seen: set<Config<S>>) returns (r: bool)
    requires Holds(cache, seen, entry.Length)
    ensures r <==> Known(model, seen, Config(Members(entry[..]), state))
  {
    hide Holds, HashOf, Members;
    var hash := Hash(entry);
    var bucket := if hash in cache then cache[hash] else [];
    ghost var c := Config(Members(entry[..]), state);
    for i := 0 to |bucket|
      invariant forall j :: 0 <= j < i ==> !Same(model, c, Meaning(bucket[j]))
    {
      var elem := bucket[i];
      BucketEntry(cache, seen, entry.Length, hash, i);
      var same := Equals(entry[..], elem.linearized);
      if same && model.equal(state, elem.state) {
        assert Same(model, c, Meaning(elem));
        return true;
      }
      assert !Same(model, c, Meaning(elem));
    }
    MissIsUnknown(model, cache, entry[..], state, bucket, seen);
    return false;
  }

  lemma {:induction false} BucketEntry<S(!new)>(cache: Cache<S>, seen: set<Config<S>>, chunks: nat, w: Word, i: nat)
    requires Holds(cache, seen, chunks) && w in cache && i < |cache[w]|
    ensures |cache[w][i].linearized| == chunks && Meaning(cache[w][i]) in seen
  {
  }

  lemma {:induction false} MissIsUnknown<S(!new), V(!new)>(model: Model<S, V>, cache: Cache<S>, words: Words, state: S,
                                        bucket: seq<CacheEntry<S>>, seen: set<Config<S>>)
    requires Holds(cache, seen, |words|)
    requires bucket == if HashOf(words) in cache then cache[HashOf(words)] else []
    requires forall j :: 0 <= j < |bucket| ==> !Same(model, Config(Members(words), state), Meaning(bucket[j]))
    ensures !Known(model, seen, Config(Members(words), state))
  {
    forall d | d in seen
      ensures !Same(model, Config(Members(words), state), d)
    {
      var e :| Cached(cache, e) && Meaning(e) == d;
      if Members(words) == Members(e.linearized) {
        MembersDetermineWords(words, e.linearized);
        assert e in bucket;
      }
    }
  }

  method CacheInsert<S(!new)>(cache: Cache<S>, entry: array<Word>, state: S, ghost seen: set<Config<S>>)
    returns (cache': Cache<S>)
    requires Holds(cache, seen, entry.Length)
    ensures Holds(cache', seen + {Config(Members(entry[..]), state)}, entry.Length)
  {
    var hash := Hash(entry);
    var e := CacheEntry(entry[..], state);
    var bucket := if hash in cache then cache[hash] else [];
    cache' := cache[hash := bucket + [e]];
    InsertHolds(cache, seen, entry.Length, e);
  }

  lemma {:induction false} InsertHolds<S(!new)>(cache: Cache<S>, seen: set<Config<S>>, chunks: nat, e: CacheEntry<S>)
    requires Holds(cache, seen, chunks) && |e.linearized| == chunks
    ensures var hash := HashOf(e.linearized);
            var bucket := if hash in cache then cache[hash] else [];
            Holds(cache[hash := bucket + [e]], seen + {Meaning(e)}, chunks)
  {
    var hash := HashOf(e.linearized);
    var bucket := if hash in cache then cache[hash] else [];
    var cache' := cache[hash := bucket + [e]];
    hide HashOf, Meaning;
    forall c | c in seen + {Meaning(e)}
      ensures exists d :: Cached(cache', d) && Meaning(d) == c
    {
      if c in seen {
        var d :| Cached(cache, d) && Meaning(d) == c;
        assert Cached(cache', d);
      } else {
        assert (bucket + [e])[|bucket|] == e;
        assert Cached(cache', e);
      }
    }
  }
}
