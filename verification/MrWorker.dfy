/** What the workers of src/mr/worker.go do with records, and the sequential program of
    src/main/mrsequential.go. */
module MrWorker {
  import opened Collections
  import opened KeyOrder
  import opened MrGroups
  import opened MrBuckets

  // ---- sorting by key -----------------------------------------------------------------

  /** sort.Sort(ByKey(s)): records with equal keys may come in any order. */
  method SortByKey(s: seq<KeyValue>) returns (t: seq<KeyValue>)
    ensures SortedByKey(t) && multiset(t) == multiset(s)
  {
    t := [];
    for i := 0 to |s|
      invariant SortedByKey(t) && multiset(t) == multiset(s[..i])
    {
      t := InsertRecord(t, s[i]);
      assert s[..i + 1] == s[..i] + [s[i]];
    }
    assert s[..|s|] == s;
  }

  method InsertRecord(s: seq<KeyValue>, kv: KeyValue) returns (t: seq<KeyValue>)
    requires SortedByKey(s)
    ensures SortedByKey(t) && multiset(t) == multiset(s) + multiset{kv}
  {
    var k := 0;
    while k < |s| && AtMost(s[k].key, kv.key)
      invariant 0 <= k <= |s|
      invariant forall j :: 0 <= j < k ==> AtMost(s[j].key, kv.key)
    {
      k := k + 1;
    }
    t := s[..k] + [kv] + s[k..];
    InsertedSorted(s, kv, k);
    assert s == s[..k] + s[k..];
  }

  lemma {:induction false} InsertedSorted(s: seq<KeyValue>, kv: KeyValue, k: nat)
    requires SortedByKey(s) && k <= |s|
    requires forall j :: 0 <= j < k ==> AtMost(s[j].key, kv.key)
    requires k < |s| ==> Less(kv.key, s[k].key)
    ensures SortedByKey(s[..k] + [kv] + s[k..])
  {
    var t := s[..k] + [kv] + s[k..];
    if k < |s| {
      LessAtMost(kv.key, s[k].key);
    }
    forall i, j | 0 <= i < j < |t|
      ensures AtMost(t[i].key, t[j].key)
    {
      if i == k && j > k + 1 {
        AtMostTransitive(kv.key, s[k].key, s[j - 1].key);
      }
    }
  }

  lemma {:induction false} LessAtMost(a: string, b: string)
    requires Less(a, b)
    ensures AtMost(a, b)
  {
    if Less(b, a) {
      LessTransitive(a, b, a);
      LessIrreflexive(a);
    }
  }

  // ---- map tasks -----------------------------------------------------------------------

  /** doMap: every record goes to the bucket its key hashes to. With no reduce tasks the
      first record panics. */
  method PartitionRecords(kva: seq<KeyValue>, hash: Hash, nReduce: nat) returns (buckets: Option<seq<seq<KeyValue>>>)
    ensures buckets.None? <==> nReduce == 0 && kva != []
    ensures buckets.Some? ==> |buckets.value| == nReduce
    ensures buckets.Some? ==> forall r :: 0 <= r < nReduce ==> buckets.value[r] == Bucket(kva, hash, nReduce, r)
  {
    var ofile: seq<seq<KeyValue>> := seq(nReduce, r => []);
    for i := 0 to |kva|
      invariant |ofile| == nReduce && (nReduce == 0 ==> i == 0)
      invariant forall r :: 0 <= r < nReduce ==> ofile[r] == Bucket(kva[..i], hash, nReduce, r)
    {
      if nReduce == 0 {
        return None;
      }
      var taskId := hash(kva[i].key) % nReduce;
      ofile := ofile[taskId := ofile[taskId] + [kva[i]]];
      assert kva[..i + 1][..i] == kva[..i];
    }
    assert kva[..|kva|] == kva;
    buckets := Some(ofile);
  }

  // ---- reduce tasks ----------------------------------------------------------------------

  /** doReduce after reading: an empty box writes no file. */
  method ReduceBox(reducef: Reducer, kvbox: seq<KeyValue>) returns (out: Option<seq<string>>)
    ensures out.None? <==> kvbox == []
    ensures out.Some? ==> Reduced(reducef, kvbox, out.value)
  {
    if |kvbox| == 0 {
      return None;
    }
    var sorted := SortByKey(kvbox);
    assert |multiset(sorted)| == |sorted| && |multiset(kvbox)| == |kvbox|;
    var lines := ReduceOnePass(reducef, sorted);
    out := Some(lines);
    assert lines == Output(reducef, sorted);
  }

  // ---- the sequential program --------------------------------------------------------------

  /** mapf on the contents of the named file. */
  type Mapper = string -> seq<KeyValue>

  function AllRecords(files: seq<string>, mapf: Mapper): seq<KeyValue> {
    if files == [] then [] else AllRecords(files[..|files| - 1], mapf) + mapf(files[|files| - 1])
  }

  /** mrsequential.go:38-84. */
  method Sequential(files: seq<string>, mapf: Mapper, reducef: Reducer) returns (out: seq<string>)
    ensures Reduced(reducef, AllRecords(files, mapf), out)
  {
    var intermediate: seq<KeyValue> := [];
    for i := 0 to |files|
      invariant intermediate == AllRecords(files[..i], mapf)
    {
      intermediate := intermediate + mapf(files[i]);
      assert files[..i + 1][..i] == files[..i];
    }
    assert files[..|files|] == files;
    var sorted := SortByKey(intermediate);
    out := ReduceNested(reducef, sorted);
    assert out == Output(reducef, sorted);
  }
}
