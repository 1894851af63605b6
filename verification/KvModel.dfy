/** The key/value model of src/models/kv.go, checked key by key, against the
    store it stands for: a map from keys to strings. */
module KvModel {
  import opened Linearizability
  import opened Histories
  import opened Locality
  import opened KeyOrder

  /** Inputs and outputs; op 0 is get, 1 is put, anything else is append. */
  datatype KvValue = KvInput(op: int, key: string, value: string) | KvOutput(result: string)

  /** An operation that does not hold an input and an output makes the source
      panic; here it is refused. */
  function Step(st: string, input: KvValue, output: KvValue): (bool, string) {
    if !(input.KvInput? && output.KvOutput?) then (false, st)
    else if input.op == 0 then (output.result == st, st)
    else if input.op == 1 then (true, input.value)
    else (true, st + input.value)
  }

  const MODEL: Model<string, KvValue> := Model("", Step, (a: string, b: string) => a == b)

  lemma {:induction false} ModelEqual()
    ensures EqualSimulates(MODEL)
  {
  }

  function KeyOf(v: KvValue): string {
    if v.KvInput? then v.key else ""
  }

  // ---- the store ------------------------------------------------------------------

  type Store = map<string, string>

  function Read(s: Store, k: string): string {
    if k in s then s[k] else ""
  }

  /** Get reports the value of its key, put replaces it, append extends it, and
      no operation touches any other key. */
  function StoreStep(s: Store, input: KvValue, output: KvValue): (bool, Store) {
    if !(input.KvInput? && output.KvOutput?) then (false, s)
    else if input.op == 0 then (output.result == Read(s, input.key), s)
    else if input.op == 1 then (true, s[input.key := input.value])
    else (true, s[input.key := Read(s, input.key) + input.value])
  }

  const STORE: Model<Store, KvValue> := Model(map[], StoreStep, (a: Store, b: Store) => a == b)

  // ---- what the store means ---------------------------------------------------------

  predicate Writes(op: Operation<KvValue>, k: string) {
    op.input.KvInput? && op.input.op != 0 && op.input.key == k
  }

  /** Where the last put of the key stands, or 0 without one. */
  function LastPut(ops: seq<Operation<KvValue>>, k: string): (p: nat)
    ensures p <= |ops|
    ensures forall j :: p < j < |ops| && Writes(ops[j], k) ==> ops[j].input.op != 1
    ensures p > 0 ==> p < |ops| && Writes(ops[p], k) && ops[p].input.op == 1
  {
    if ops == [] then 0
    else
      var n := |ops| - 1;
      if Writes(ops[n], k) && ops[n].input.op == 1 then n else LastPut(ops[..n], k)
  }

  /** All that was put or appended to the key, one after the other. */
  function Written(ops: seq<Operation<KvValue>>, k: string): string {
    if ops == [] then ""
    else
      var n := |ops| - 1;
      Written(ops[..n], k) + if Writes(ops[n], k) then ops[n].input.value else ""
  }

  /** The value of a key: what was written from its last put on. */
  function ValueAfter(ops: seq<Operation<KvValue>>, k: string): string {
    Written(ops[LastPut(ops, k)..], k)
  }

  /** Every operation has an input and an output, and every get reports the value of its
      key after the operations before it. */
  ghost predicate GetsRight(order: seq<Operation<KvValue>>) {
    forall i :: 0 <= i < |order| ==> GetRight(order, i)
  }

  predicate GetRight(order: seq<Operation<KvValue>>, i: nat)
    requires i < |order|
  {
    && order[i].input.KvInput? && order[i].output.KvOutput?
    && (order[i].input.op == 0 ==> order[i].output.result == ValueAfter(order[..i], order[i].input.key))
  }

  lemma {:induction false} ValueStep(ops: seq<Operation<KvValue>>, op: Operation<KvValue>, k: string)
    ensures ValueAfter(ops + [op], k) ==
            if !Writes(op, k) then ValueAfter(ops, k)
            else if op.input.op == 1 then op.input.value
            else ValueAfter(ops, k) + op.input.value
  {
    var all, n := ops + [op], |ops|;
    assert all[..n] == ops;
    var p := LastPut(all, k);
    var tail := all[p..];
    assert tail[..n - p] == ops[p..] && tail[n - p] == op;
    assert Written(tail, k) == Written(ops[p..], k) + if Writes(op, k) then op.input.value else "";
    assert p == n ==> ops[p..] == [];
  }

  /** The store after the operations holds the value of every key. */
  ghost predicate Holds(s: Store, ops: seq<Operation<KvValue>>) {
    forall k :: Read(s, k) == ValueAfter(ops, k)
  }

  lemma {:induction false} StoreHolds(s: Store, ops: seq<Operation<KvValue>>, op: Operation<KvValue>)
    requires Holds(s, ops) && op.input.KvInput? && op.output.KvOutput?
    ensures Holds(StoreStep(s, op.input, op.output).1, ops + [op])
  {
    var s' := StoreStep(s, op.input, op.output).1;
    forall k
      ensures Read(s', k) == ValueAfter(ops + [op], k)
    {
      ValueStep(ops, op, k);
    }
  }

  lemma {:induction false} LegalFrom(s: Store, before: seq<Operation<KvValue>>, order: seq<Operation<KvValue>>)
    requires Holds(s, before)
    ensures Legal(STORE, s, order) <==> forall i :: |before| <= i < |before + order| ==> GetRight(before + order, i)
    decreases |order|
  {
    if order != [] {
      var op, all := order[0], before + order;
      assert all[..|before|] == before && all[|before|] == op;
      assert (before + [op]) + order[1..] == all;
      hide Holds, ValueAfter;
      var (ok, s') := StoreStep(s, op.input, op.output);
      assert ok <==> GetRight(all, |before|) by {
        HoldsAt(s, before, op);
      }
      if ok {
        StoreHolds(s, before, op);
        LegalFrom(s', before + [op], order[1..]);
      }
    }
  }

  lemma {:induction false} HoldsAt(s: Store, before: seq<Operation<KvValue>>, op: Operation<KvValue>)
    requires Holds(s, before)
    ensures op.input.KvInput? ==> Read(s, op.input.key) == ValueAfter(before, op.input.key)
  {
  }

  /** An order is accepted by the map exactly if every get reports the last value put, with
      all that was appended since. */
  lemma {:induction false} LegalMeaning(order: seq<Operation<KvValue>>)
    ensures Legal(STORE, STORE.init, order) <==> GetsRight(order)
  {
    LegalFrom(map[], [], order);
    assert [] + order == order;
  }

  ghost predicate SameReads(s: Store, t: Store) {
    forall k :: Read(s, k) == Read(t, k)
  }

  /** One store and independent single-key registers accept the same orders. */
  lemma {:induction false} StoreIsProduct(s: Store, t: Store, order: seq<Operation<KvValue>>)
    requires SameReads(s, t)
    ensures Legal(STORE, s, order) <==> Legal(Product(MODEL, KeyOf), t, order)
    decreases |order|
  {
    if order != [] {
      var input, output := order[0].input, order[0].output;
      var k := KeyOf(input);
      var (ok, s') := StoreStep(s, input, output);
      var (one, value) := Step(Read(t, k), input, output);
      var t' := t[k := value];
      ProductStep(t, input, output);
      SameStep(s, t, input, output);
      hide StoreStep, Step, SameReads, Read;
      StoreIsProduct(s', t', order[1..]);
    }
  }

  lemma {:induction false} ProductStep(t: Store, input: KvValue, output: KvValue)
    ensures var k := KeyOf(input);
            var (one, value) := Step(Read(t, k), input, output);
            Product(MODEL, KeyOf).step(t, input, output) == (one, t[k := value])
  {
    assert Copy(t, KeyOf(input), "") == Read(t, KeyOf(input));
  }

  lemma {:induction false} SameStep(s: Store, t: Store, input: KvValue, output: KvValue)
    requires SameReads(s, t)
    ensures var k := KeyOf(input);
            var (ok, s') := StoreStep(s, input, output);
            var (one, value) := Step(Read(t, k), input, output);
            ok == one && SameReads(s', t[k := value])
  {
    var k := KeyOf(input);
    var s' := StoreStep(s, input, output).1;
    var t' := t[k := Step(Read(t, k), input, output).1];
    assert Read(s, k) == Read(t, k);
    assert forall j :: j != k ==> Read(s', j) == Read(s, j) && Read(t', j) == Read(t, j);
  }

  lemma {:induction false} StoreLinearizable(ops: seq<Operation<KvValue>>)
    ensures LinearizableOps(STORE, ops) <==> LinearizableOps(Product(MODEL, KeyOf), ops)
  {
    forall order
      ensures Linearizes(STORE, ops, order) <==> Linearizes(Product(MODEL, KeyOf), ops, order)
    {
      StoreIsProduct(map[], map[], order);
    }
  }

  // ---- partitioning ------------------------------------------------------------------

  /** One group per key that occurs, in key order, each in history order. */
  ghost predicate PartitionOf(history: seq<Operation<KvValue>>, keys: seq<string>, parts: seq<seq<Operation<KvValue>>>) {
    && Ascending(keys)
    && (forall k :: k in keys <==> k in KeysOf(KeyOf, history))
    && |parts| == |keys|
    && forall i :: 0 <= i < |keys| ==> parts[i] == Group(KeyOf, keys[i], history)
  }

  method Partition(history: seq<Operation<KvValue>>)
    returns (parts: seq<seq<Operation<KvValue>>>)
    ensures exists keys :: PartitionOf(history, keys, parts)
  {
    var m: map<string, seq<Operation<KvValue>>> := map[];
    for i := 0 to |history|
      invariant forall k :: k in m <==> k in KeysOf(KeyOf, history[..i])
      invariant forall k :: k in m ==> m[k] == Group(KeyOf, k, history[..i])
    {
      var v := history[i];
      var key := KeyOf(v.input);
      assert history[..i + 1] == history[..i] + [v];
      forall k: string
        ensures Group(KeyOf, k, history[..i + 1]) == Group(KeyOf, k, history[..i]) + if key == k then [v] else []
      {
        GroupSnoc(KeyOf, k, history[..i], v);
      }
      if key !in m {
        AbsentGroup(history[..i], key);
      }
      m := m[key := (if key in m then m[key] else []) + [v]];
    }
    assert history[..|history|] == history;
    var sorted := SortKeys(m.Keys);
    parts := [];
    for i := 0 to |sorted|
      invariant |parts| == i
      invariant forall j :: 0 <= j < i ==> parts[j] == Group(KeyOf, sorted[j], history)
    {
      parts := parts + [m[sorted[i]]];
    }
    assert PartitionOf(history, sorted, parts);
  }

  lemma {:induction false} AbsentGroup(history: seq<Operation<KvValue>>, k: string)
    requires k !in KeysOf(KeyOf, history)
    ensures Group(KeyOf, k, history) == []
  {
    SelectNothing(KeyOf, {k}, history);
  }

  lemma {:induction false} GroupSnoc(key: KvValue -> string, k: string, ops: seq<Operation<KvValue>>, v: Operation<KvValue>)
    ensures Group(key, k, ops + [v]) == Group(key, k, ops) + if key(v.input) == k then [v] else []
  {
    if ops == [] {
      assert [] + [v] == [v] && [v][1..] == [];
    } else {
      GroupSnoc(key, k, ops[1..], v);
      assert (ops + [v])[1..] == ops[1..] + [v];
    }
  }

  /** Checking each part against the one-string model decides whether the whole
      history is linearizable against the store. */
  lemma {:induction false} PartitionSound(history: seq<Operation<KvValue>>, keys: seq<string>, parts: seq<seq<Operation<KvValue>>>)
    requires PartitionOf(history, keys, parts) && Forward(history)
    ensures LinearizableOps(STORE, history) <==>
            forall i :: 0 <= i < |parts| ==> LinearizableOps(MODEL, parts[i])
  {
    StoreLinearizable(history);
    LocalityTheorem(MODEL, KeyOf, history);
    if forall i :: 0 <= i < |parts| ==> LinearizableOps(MODEL, parts[i]) {
      forall k | k in KeysOf(KeyOf, history)
        ensures LinearizableOps(MODEL, Group(KeyOf, k, history))
      {
        assert k in keys;
        var i :| 0 <= i < |keys| && keys[i] == k;
        assert LinearizableOps(MODEL, parts[i]);
      }
    }
    if LinearizableOps(STORE, history) {
      forall i | 0 <= i < |parts|
        ensures LinearizableOps(MODEL, parts[i])
      {
        assert keys[i] in keys;
      }
    }
  }

  /** The parts inherit what `makeEntries` needs. */
  lemma {:induction false} PartsInherit(history: seq<Operation<KvValue>>, k: string)
    ensures Forward(history) ==> Forward(Group(KeyOf, k, history))
    ensures Lasting(history) ==> Lasting(Group(KeyOf, k, history))
    ensures NoTies(history) ==> NoTies(Group(KeyOf, k, history))
  {
    SelectMembers(KeyOf, {k}, history);
    var part := Group(KeyOf, k, history);
    forall x | 0 <= x < |part|
      ensures exists y :: 0 <= y < |history| && history[y] == part[x]
    {
      assert part[x] in part;
    }
  }
}
