/** Splitting the records over nReduce buckets by the hash of the key
    (src/mr/worker.go:66-73), sorting and reducing each bucket alone
    (src/mr/worker.go:90-143), and putting the outputs together gives the lines that
    reducing all records at once gives (src/main/mrsequential.go:59-84). */
module MrBuckets {
  import opened Collections
  import opened KeyOrder
  import opened MrGroups
  import opened MrOutput

  type Hash = string -> nat

  /** The records whose key goes to reduce task r. */
  function Bucket(kvs: seq<KeyValue>, hash: Hash, nReduce: nat, r: nat): seq<KeyValue>
    requires nReduce > 0
  {
    if kvs == [] then []
    else
      var n := |kvs| - 1;
      Bucket(kvs[..n], hash, nReduce, r) + if hash(kvs[n].key) % nReduce == r then [kvs[n]] else []
  }

  /** reducef does not look at the order of the values. */
  ghost predicate OrderFree(reducef: Reducer) {
    forall k, a, b :: multiset(a) == multiset(b) ==> reducef(k, a) == reducef(k, b)
  }

  // ---- buckets ------------------------------------------------------------------------

  lemma {:induction false} BucketAppend(a: seq<KeyValue>, b: seq<KeyValue>, hash: Hash, nReduce: nat, r: nat)
    requires nReduce > 0
    ensures Bucket(a + b, hash, nReduce, r) == Bucket(a, hash, nReduce, r) + Bucket(b, hash, nReduce, r)
    decreases |b|
  {
    if b == [] {
      assert a + b == a;
    } else {
      var n := |b| - 1;
      BucketAppend(a, b[..n], hash, nReduce, r);
      assert (a + b)[..|a| + n] == a + b[..n];
    }
  }

  lemma {:induction false} BucketCount(kvs: seq<KeyValue>, hash: Hash, nReduce: nat, r: nat, kv: KeyValue)
    requires nReduce > 0
    ensures multiset(Bucket(kvs, hash, nReduce, r))[kv] == if hash(kv.key) % nReduce == r then multiset(kvs)[kv] else 0
  {
    if kvs != [] {
      var n := |kvs| - 1;
      BucketCount(kvs[..n], hash, nReduce, r, kv);
      CountSnoc(kvs, kv);
      CountAppend(Bucket(kvs[..n], hash, nReduce, r), if hash(kvs[n].key) % nReduce == r then [kvs[n]] else [], kv);
    }
  }

  /** A bucket depends, up to order, on the records up to order. */
  lemma {:induction false} BucketMultiset(a: seq<KeyValue>, b: seq<KeyValue>, hash: Hash, nReduce: nat, r: nat)
    requires nReduce > 0 && multiset(a) == multiset(b)
    ensures multiset(Bucket(a, hash, nReduce, r)) == multiset(Bucket(b, hash, nReduce, r))
  {
    var p, q := multiset(Bucket(a, hash, nReduce, r)), multiset(Bucket(b, hash, nReduce, r));
    forall kv: KeyValue
      ensures p[kv] == q[kv]
    {
      BucketCount(a, hash, nReduce, r, kv);
      BucketCount(b, hash, nReduce, r, kv);
    }
    assert p == q;
  }

  /** A bucket holds all values of the keys that hash to it. */
  lemma {:induction false} BucketValues(kvs: seq<KeyValue>, hash: Hash, nReduce: nat, r: nat, k: string)
    requires nReduce > 0 && hash(k) % nReduce == r
    ensures ValuesFor(Bucket(kvs, hash, nReduce, r), k) == ValuesFor(kvs, k)
  {
    if kvs != [] {
      var n := |kvs| - 1;
      var front, last := Bucket(kvs[..n], hash, nReduce, r), [kvs[n]];
      BucketValues(kvs[..n], hash, nReduce, r, k);
      ValuesForAppend(front, last, k);
      assert ValuesFor(last[..0], k) == [];
      assert front + [] == front;
    }
  }

  lemma {:induction false} BucketKeys(kvs: seq<KeyValue>, hash: Hash, nReduce: nat, r: nat, k: string)
    requires nReduce > 0
    ensures HasKey(Bucket(kvs, hash, nReduce, r), k) <==> HasKey(kvs, k) && hash(k) % nReduce == r
  {
    var b := Bucket(kvs, hash, nReduce, r);
    if HasKey(b, k) {
      var i :| 0 <= i < |b| && b[i].key == k;
      assert b[i] in multiset(b);
      BucketCount(kvs, hash, nReduce, r, b[i]);
      assert b[i] in multiset(kvs);
    }
    if HasKey(kvs, k) && hash(k) % nReduce == r {
      var i :| 0 <= i < |kvs| && kvs[i].key == k;
      assert kvs[i] in multiset(kvs);
      BucketCount(kvs, hash, nReduce, r, kvs[i]);
      assert kvs[i] in multiset(b);
    }
  }

  lemma {:induction false} SameKeys(a: seq<KeyValue>, b: seq<KeyValue>, k: string)
    requires multiset(a) == multiset(b) && HasKey(a, k)
    ensures HasKey(b, k)
  {
    var i :| 0 <= i < |a| && a[i].key == k;
    assert a[i] in multiset(b);
  }

  // ---- outputs ------------------------------------------------------------------------

  /** What reducing the sorted records `s` prints. */
  function Output(reducef: Reducer, s: seq<KeyValue>): seq<string> {
    Lines(reducef, Groups(s))
  }

  /** `out` is what sorting `kvs` by key, in any order of equal keys, and reducing prints. */
  ghost predicate Reduced(reducef: Reducer, kvs: seq<KeyValue>, out: seq<string>) {
    exists s :: SortedByKey(s) && multiset(s) == multiset(kvs) && out == Output(reducef, s)
  }

  /** The line for a key, from the records in any order. */
  function LineFor(reducef: Reducer, kvs: seq<KeyValue>): string -> string {
    k => Line(k, reducef(k, ValuesFor(kvs, k)))
  }

  /** The output of sorted records is one line per key, each from all values of the key. */
  lemma {:induction false} OutputByKey(reducef: Reducer, s: seq<KeyValue>)
    requires SortedByKey(s)
    ensures Output(reducef, s) == Apply(LineFor(reducef, s), KeysOf(Groups(s)))
    ensures Distinct(KeysOf(Groups(s)))
    ensures forall k :: k in KeysOf(Groups(s)) <==> HasKey(s, k)
  {
    var gs := Groups(s);
    SortedGroups(s);
    AscendingDistinct(KeysOf(gs));
    assert forall i :: 0 <= i < |gs| ==> HasKey(s, gs[i].key) && gs[i].values == ValuesFor(s, gs[i].key);
    assert Output(reducef, s) == Apply(LineFor(reducef, s), KeysOf(gs));
    forall k
      ensures k in KeysOf(gs) <==> HasKey(s, k)
    {
      if HasKey(s, k) {
        var i :| 0 <= i < |s| && s[i].key == k;
      }
    }
  }

  /** The lines depend only on the records up to order. */
  lemma {:induction false} LineForMultiset(reducef: Reducer, a: seq<KeyValue>, b: seq<KeyValue>, k: string)
    requires OrderFree(reducef) && multiset(a) == multiset(b)
    ensures LineFor(reducef, a)(k) == LineFor(reducef, b)(k)
  {
    ValuesForMultiset(a, b, k);
  }

  lemma {:induction false} ApplySame(f: string -> string, g: string -> string, ks: seq<string>)
    requires forall k :: k in ks ==> f(k) == g(k)
    ensures Apply(f, ks) == Apply(g, ks)
  {
  }

  /** The keys and lines of one bucket, said in terms of all records. */
  lemma {:induction false} BucketOutput(reducef: Reducer, hash: Hash, nReduce: nat, r: nat, all: seq<KeyValue>, box: seq<KeyValue>)
    requires nReduce > 0 && OrderFree(reducef) && SortedByKey(box)
    requires multiset(box) == multiset(Bucket(all, hash, nReduce, r))
    ensures Output(reducef, box) == Apply(LineFor(reducef, all), KeysOf(Groups(box)))
    ensures Distinct(KeysOf(Groups(box)))
    ensures forall k :: k in KeysOf(Groups(box)) <==> HasKey(all, k) && hash(k) % nReduce == r
  {
    var b, keys := Bucket(all, hash, nReduce, r), KeysOf(Groups(box));
    OutputByKey(reducef, box);
    forall k
      ensures k in keys <==> HasKey(all, k) && hash(k) % nReduce == r
    {
      BucketKeys(all, hash, nReduce, r, k);
      if HasKey(box, k) { SameKeys(box, b, k); }
      if HasKey(b, k) { SameKeys(b, box, k); }
    }
    forall k | k in keys
      ensures LineFor(reducef, box)(k) == LineFor(reducef, all)(k)
    {
      LineForMultiset(reducef, box, b, k);
      BucketValues(all, hash, nReduce, r, k);
    }
    ApplySame(LineFor(reducef, box), LineFor(reducef, all), keys);
  }

  function Flatten(outs: seq<seq<string>>): seq<string> {
    if outs == [] then [] else Flatten(outs[..|outs| - 1]) + outs[|outs| - 1]
  }

  ghost predicate BucketsReduced(reducef: Reducer, hash: Hash, nReduce: nat, all: seq<KeyValue>, outs: seq<seq<string>>) {
    && nReduce > 0
    && |outs| <= nReduce
    && forall r :: 0 <= r < |outs| ==> Reduced(reducef, Bucket(all, hash, nReduce, r), outs[r])
  }

  /** The outputs of the first buckets are one line per key that hashes to them. */
  lemma {:induction false} FirstBuckets(reducef: Reducer, hash: Hash, nReduce: nat, all: seq<KeyValue>, outs: seq<seq<string>>)
    returns (keys: seq<string>)
    requires OrderFree(reducef) && BucketsReduced(reducef, hash, nReduce, all, outs)
    ensures Distinct(keys) && forall k :: k in keys <==> HasKey(all, k) && hash(k) % nReduce < |outs|
    ensures Flatten(outs) == Apply(LineFor(reducef, all), keys)
    decreases |outs|
  {
    hide OrderFree, Reduced, Bucket, LineFor, Apply, Distinct;
    keys := NoKeys(LineFor(reducef, all));
    if outs != [] {
      var r := |outs| - 1;
      FewerBuckets(reducef, hash, nReduce, all, outs);
      var before := FirstBuckets(reducef, hash, nReduce, all, outs[..r]);
      var these := NextBucket(reducef, hash, nReduce, r, all, outs[r]);
      keys := before + these;
      JoinDistinct(before, these);
      ApplyConcat(LineFor(reducef, all), before, these);
    }
  }

  lemma {:induction false} NoKeys(f: string -> string) returns (keys: seq<string>)
    ensures keys == [] && Distinct(keys) && Apply(f, keys) == []
  {
    keys := [];
  }

  lemma {:induction false} FewerBuckets(reducef: Reducer, hash: Hash, nReduce: nat, all: seq<KeyValue>, outs: seq<seq<string>>)
    requires BucketsReduced(reducef, hash, nReduce, all, outs) && outs != []
    ensures BucketsReduced(reducef, hash, nReduce, all, outs[..|outs| - 1])
    ensures Reduced(reducef, Bucket(all, hash, nReduce, |outs| - 1), outs[|outs| - 1])
  {
  }

  lemma {:induction false} NextBucket(reducef: Reducer, hash: Hash, nReduce: nat, r: nat, all: seq<KeyValue>, out: seq<string>)
    returns (keys: seq<string>)
    requires nReduce > 0 && OrderFree(reducef) && Reduced(reducef, Bucket(all, hash, nReduce, r), out)
    ensures Distinct(keys) && forall k :: k in keys <==> HasKey(all, k) && hash(k) % nReduce == r
    ensures out == Apply(LineFor(reducef, all), keys)
  {
    var box :| SortedByKey(box) && multiset(box) == multiset(Bucket(all, hash, nReduce, r)) && out == Output(reducef, box);
    BucketOutput(reducef, hash, nReduce, r, all, box);
    keys := KeysOf(Groups(box));
  }

  lemma {:induction false} ApplyConcat(f: string -> string, a: seq<string>, b: seq<string>)
    ensures Apply(f, a + b) == Apply(f, a) + Apply(f, b)
  {
  }

  lemma {:induction false} JoinDistinct(a: seq<string>, b: seq<string>)
    requires Distinct(a) && Distinct(b) && forall k :: k in a ==> k !in b
    ensures Distinct(a + b) && forall k :: k in a + b <==> k in a || k in b
  {
    var c := a + b;
    forall i, j | 0 <= i < j < |c|
      ensures c[i] != c[j]
    {
      if i < |a| <= j {
        assert c[i] in a && c[j] in b;
      }
    }
  }

  /** Reducing bucket by bucket prints the lines of reducing everything at once. */
  lemma {:induction false} BucketsTheorem(reducef: Reducer, hash: Hash, nReduce: nat, all: seq<KeyValue>,
                                          outs: seq<seq<string>>, out: seq<string>)
    requires OrderFree(reducef) && BucketsReduced(reducef, hash, nReduce, all, outs) && |outs| == nReduce
    requires Reduced(reducef, all, out)
    ensures multiset(Flatten(outs)) == multiset(out)
  {
    var keys := FirstBuckets(reducef, hash, nReduce, all, outs);
    var s :| SortedByKey(s) && multiset(s) == multiset(all) && out == Output(reducef, s);
    var allKeys := KeysOf(Groups(s));
    OutputByKey(reducef, s);
    forall k
      ensures k in keys <==> k in allKeys
    {
      if HasKey(s, k) { SameKeys(s, all, k); }
      if HasKey(all, k) { SameKeys(all, s, k); }
    }
    forall k | k in allKeys
      ensures LineFor(reducef, s)(k) == LineFor(reducef, all)(k)
    {
      LineForMultiset(reducef, s, all, k);
    }
    ApplySame(LineFor(reducef, s), LineFor(reducef, all), allKeys);
    SameDistinct(keys, allKeys);
    ApplyMultiset(LineFor(reducef, all), keys, allKeys);
  }

  /** With an order-free reducef the output does not depend on how ties were sorted:
      any two outputs of the same records are the same lines in the same order. */
  lemma {:induction false} ReducedUnique(reducef: Reducer, kvs: seq<KeyValue>, out: seq<string>, out': seq<string>)
    requires OrderFree(reducef) && Reduced(reducef, kvs, out) && Reduced(reducef, kvs, out')
    ensures out == out'
  {
    var s :| SortedByKey(s) && multiset(s) == multiset(kvs) && out == Output(reducef, s);
    var s' :| SortedByKey(s') && multiset(s') == multiset(kvs) && out' == Output(reducef, s');
    var keys, keys' := KeysOf(Groups(s)), KeysOf(Groups(s'));
    OutputByKey(reducef, s);
    OutputByKey(reducef, s');
    SortedGroups(s);
    SortedGroups(s');
    forall k
      ensures k in keys <==> k in keys'
    {
      if HasKey(s, k) { SameKeys(s, s', k); }
      if HasKey(s', k) { SameKeys(s', s, k); }
    }
    AscendingSame(keys, keys');
    forall k | k in keys
      ensures LineFor(reducef, s)(k) == LineFor(reducef, s')(k)
    {
      LineForMultiset(reducef, s, s', k);
    }
    ApplySame(LineFor(reducef, s), LineFor(reducef, s'), keys);
  }

  /** Two ascending lists of the same keys are the same list. */
  lemma {:induction false} AscendingSame(a: seq<string>, b: seq<string>)
    requires Ascending(a) && Ascending(b) && forall k :: k in a <==> k in b
    ensures a == b
    decreases |a|
  {
    assert forall i :: 0 <= i < |a| ==> a[i] in b;
    assert forall i :: 0 <= i < |b| ==> b[i] in a;
    if a != [] {
      SmallestFirst(a, b);
      forall k
        ensures k in a[1..] <==> k in b[1..]
      {
        LessIrreflexive(a[0]);
        if k in a[1..] { assert k in a; assert k in b; }
        if k in b[1..] { assert k in b; assert k in a; }
      }
      AscendingSame(a[1..], b[1..]);
      assert a == [a[0]] + a[1..] && b == [b[0]] + b[1..];
    }
  }

  lemma {:induction false} SmallestFirst(a: seq<string>, b: seq<string>)
    requires Ascending(a) && Ascending(b) && a != [] && b != [] && a[0] in b && b[0] in a
    ensures a[0] == b[0]
  {
    if a[0] != b[0] {
      LessTransitive(a[0], b[0], a[0]);
      LessIrreflexive(a[0]);
    }
  }
}
