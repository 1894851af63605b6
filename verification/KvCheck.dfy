/** `checkOperations` with the key/value model, end to end
    (src/porcupine/checker.go:360-368, src/models/kv.go): partition by key, make
    entries, search each partition, collect the verdict. */
module KvCheck {
  import opened Linearizability
  import opened Histories
  import opened Ties
  import opened KvModel
  import opened Locality
  import Search
  import Verdict

  /** The entries of the i-th partition. */
  ghost predicate EntriesOfParts(parts: seq<seq<Operation<KvValue>>>, entries: seq<seq<Entry<KvValue>>>) {
    |entries| == |parts| && forall i :: 0 <= i < |parts| ==> EntriesOf(parts[i], entries[i])
  }

  /** truth[i] is what an undisturbed search of partition i answers. */
  ghost predicate Answers(entries: seq<seq<Entry<KvValue>>>, truth: seq<bool>) {
    |truth| == |entries| &&
    forall i :: 0 <= i < |entries| ==> WellFormed(entries[i]) && (truth[i] <==> Linearizable(MODEL, entries[i]))
  }

  /** checker.go:365 and 277 for one partition, without kill flag. */
  method CheckPartition(part: seq<Operation<KvValue>>)
    returns (entries: seq<Entry<KvValue>>, ok: bool)
    requires Lasting(part)
    ensures EntriesOf(part, entries) && WellFormed(entries)
    ensures ok <==> Linearizable(MODEL, entries)
    ensures ok ==> LinearizableOps(MODEL, part)
    ensures StrictlyLinearizable(MODEL, part) ==> ok
  {
    entries := MakeEntries(part);
    EntriesWellFormed(part, entries);
    ModelEqual();
    var longest;
    ghost var killed, turns;
    ok, longest, killed, turns := Search.CheckSingle(MODEL, entries, false, (_: nat) => false);
    EntriesFaithful(MODEL, part, entries);
    if StrictlyLinearizable(MODEL, part) {
      StrictSurvives(MODEL, part, entries);
    }
  }

  // ---- strict linearizability, key by key ----------------------------------------------

  lemma {:induction false} TightGroup(history: seq<Operation<KvValue>>, k: string)
    ensures Group(KeyOf, k, Tightened(history)) == Tightened(Group(KeyOf, k, history))
  {
    if history != [] {
      TightGroup(history[1..], k);
      assert Tightened(history)[1..] == Tightened(history[1..]);
    }
  }

  function TightenedParts(parts: seq<seq<Operation<KvValue>>>): (r: seq<seq<Operation<KvValue>>>)
    ensures |r| == |parts| && forall i :: 0 <= i < |parts| ==> r[i] == Tightened(parts[i])
  {
    seq(|parts|, i requires 0 <= i < |parts| => Tightened(parts[i]))
  }

  lemma {:induction false} TightPartition(history: seq<Operation<KvValue>>, keys: seq<string>, parts: seq<seq<Operation<KvValue>>>)
    requires PartitionOf(history, keys, parts)
    ensures PartitionOf(Tightened(history), keys, TightenedParts(parts))
  {
    var tight := Tightened(history);
    forall k
      ensures k in KeysOf(KeyOf, tight) <==> k in KeysOf(KeyOf, history)
    {
      if k in KeysOf(KeyOf, history) {
        var i :| 0 <= i < |history| && KeyOf(history[i].input) == k;
        assert tight[i] in tight;
      }
      if k in KeysOf(KeyOf, tight) {
        var i :| 0 <= i < |tight| && KeyOf(tight[i].input) == k;
        assert history[i] in history;
      }
    }
    forall i | 0 <= i < |keys|
      ensures TightenedParts(parts)[i] == Group(KeyOf, keys[i], tight)
    {
      TightGroup(history, keys[i]);
    }
  }

  /** A history is strictly linearizable against the store exactly when every part is
      strictly linearizable against the single string. */
  lemma {:induction false} StrictPartition(history: seq<Operation<KvValue>>, keys: seq<string>, parts: seq<seq<Operation<KvValue>>>)
    requires PartitionOf(history, keys, parts) && Lasting(history)
    ensures StrictlyLinearizable(STORE, history) <==>
            forall i :: 0 <= i < |parts| ==> StrictlyLinearizable(MODEL, parts[i])
  {
    var tight := TightenedParts(parts);
    TightPartition(history, keys, parts);
    TightLinearizable(STORE, history);
    PartitionSound(Tightened(history), keys, tight);
    forall i | 0 <= i < |parts|
      ensures LinearizableOps(MODEL, tight[i]) <==> StrictlyLinearizable(MODEL, parts[i])
    {
      TightLinearizable(MODEL, parts[i]);
    }
  }

  // ---- the whole check -------------------------------------------------------------------

  lemma {:induction false} PartMeaning(history: seq<Operation<KvValue>>, keys: seq<string>, parts: seq<seq<Operation<KvValue>>>,
                    entries: seq<seq<Entry<KvValue>>>, i: nat)
    requires PartitionOf(history, keys, parts) && Lasting(history) && EntriesOfParts(parts, entries) && i < |parts|
    ensures WellFormed(entries[i])
    ensures Linearizable(MODEL, entries[i]) ==> LinearizableOps(MODEL, parts[i])
    ensures StrictlyLinearizable(MODEL, parts[i]) ==> Linearizable(MODEL, entries[i])
  {
    assert parts[i] == Group(KeyOf, keys[i], history);
    PartsInherit(history, keys[i]);
    EntriesFaithful(MODEL, parts[i], entries[i]);
    if StrictlyLinearizable(MODEL, parts[i]) {
      StrictSurvives(MODEL, parts[i], entries[i]);
    }
  }

  ghost predicate AllAccepted(entries: seq<seq<Entry<KvValue>>>) {
    forall i :: 0 <= i < |entries| ==> WellFormed(entries[i]) && Linearizable(MODEL, entries[i])
  }

  /** The searches together are between the two notions: they accept what is strictly
      linearizable and accept nothing that is not linearizable. */
  lemma {:induction false} BetweenNotions(history: seq<Operation<KvValue>>, keys: seq<string>, parts: seq<seq<Operation<KvValue>>>,
                                          entries: seq<seq<Entry<KvValue>>>)
    requires PartitionOf(history, keys, parts) && Lasting(history) && EntriesOfParts(parts, entries)
    ensures StrictlyLinearizable(STORE, history) ==> AllAccepted(entries)
    ensures AllAccepted(entries) ==> LinearizableOps(STORE, history)
  {
    PartitionSound(history, keys, parts);
    StrictPartition(history, keys, parts);
    forall i | 0 <= i < |parts|
      ensures WellFormed(entries[i])
      ensures Linearizable(MODEL, entries[i]) ==> LinearizableOps(MODEL, parts[i])
      ensures StrictlyLinearizable(MODEL, parts[i]) ==> Linearizable(MODEL, entries[i])
    {
      PartMeaning(history, keys, parts, entries, i);
    }
  }

  /** Every part sorted with returns first. */
  lemma {:induction false} WorstOutcome(parts: seq<seq<Operation<KvValue>>>) returns (entries: seq<seq<Entry<KvValue>>>)
    requires forall i :: 0 <= i < |parts| ==> Lasting(parts[i])
    ensures EntriesOfParts(parts, entries)
    ensures AllAccepted(entries) ==> forall i :: 0 <= i < |parts| ==> StrictlyLinearizable(MODEL, parts[i])
  {
    entries := [];
    hide Lasting, EntriesOf, Linearizable, StrictlyLinearizable, WellFormed;
    for n := 0 to |parts|
      invariant |entries| == n && forall i :: 0 <= i < n ==> Worst(parts[i], entries[i])
    {
      var es := WorstEntries(parts[n]);
      entries := entries + [es];
    }
    forall i | 0 <= i < |parts|
      ensures EntriesOf(parts[i], entries[i]) && WellFormed(entries[i])
      ensures Linearizable(MODEL, entries[i]) ==> StrictlyLinearizable(MODEL, parts[i])
    {
      assert Worst(parts[i], entries[i]);
    }
  }

  /** Entries that are accepted only if the operations are strictly linearizable. */
  ghost predicate Worst(part: seq<Operation<KvValue>>, es: seq<Entry<KvValue>>) {
    EntriesOf(part, es) && WellFormed(es) && (Linearizable(MODEL, es) ==> StrictlyLinearizable(MODEL, part))
  }

  lemma {:induction false} WorstEntries(part: seq<Operation<KvValue>>) returns (es: seq<Entry<KvValue>>)
    requires Lasting(part)
    ensures Worst(part, es)
  {
    es := ReturnsFirst(part);
    EntriesWellFormed(part, es);
    if Linearizable(MODEL, es) {
      OnlyStrict(MODEL, part, es);
    }
  }

  /** However ties are sorted in the parts, all searches accept: exactly the strictly
      linearizable histories.  However ties are sorted, the searches accept exactly if the
      history is linearizable: exactly when linearizable implies strictly linearizable. */
  lemma {:induction false} KvTiesExact(history: seq<Operation<KvValue>>, keys: seq<string>, parts: seq<seq<Operation<KvValue>>>)
    requires PartitionOf(history, keys, parts) && Lasting(history)
    ensures (forall entries :: EntriesOfParts(parts, entries) ==> AllAccepted(entries)) <==> StrictlyLinearizable(STORE, history)
    ensures (forall entries :: EntriesOfParts(parts, entries) ==> (AllAccepted(entries) <==> LinearizableOps(STORE, history))) <==>
            (LinearizableOps(STORE, history) ==> StrictlyLinearizable(STORE, history))
  {
    forall i | 0 <= i < |parts|
      ensures Lasting(parts[i])
    {
      PartsInherit(history, keys[i]);
    }
    var worst := WorstOutcome(parts);
    StrictPartition(history, keys, parts);
    forall entries | EntriesOfParts(parts, entries)
      ensures StrictlyLinearizable(STORE, history) ==> AllAccepted(entries)
      ensures AllAccepted(entries) ==> LinearizableOps(STORE, history)
    {
      BetweenNotions(history, keys, parts, entries);
    }
  }

  /** The verdict of a whole check, whatever the scheduling and the order of ties: Ok is
      right for every history, a strictly linearizable history is never refused, and
      without a timeout it is accepted. */
  lemma {:induction false} KvVerdict(history: seq<Operation<KvValue>>, keys: seq<string>, parts: seq<seq<Operation<KvValue>>>,
                  entries: seq<seq<Entry<KvValue>>>, truth: seq<bool>,
                  info: bool, states: seq<Verdict.State>, actions: seq<Verdict.Action>, k: nat)
    requires PartitionOf(history, keys, parts) && Lasting(history)
    requires EntriesOfParts(parts, entries) && Answers(entries, truth)
    requires Verdict.Run(truth, info, states, actions) && k < |states| && states[k].phase.Returned?
    ensures states[k].phase.result == Verdict.Ok ==> LinearizableOps(STORE, history)
    ensures StrictlyLinearizable(STORE, history) ==> states[k].phase.result != Verdict.Illegal
    ensures StrictlyLinearizable(STORE, history) && Verdict.NoTimeout(actions, k) ==> states[k].phase.result == Verdict.Ok
    ensures Verdict.NoTimeout(actions, k) ==> (states[k].phase.result == Verdict.Ok <==> AllAccepted(entries))
    ensures NoTies(history) ==> (StrictlyLinearizable(STORE, history) <==> LinearizableOps(STORE, history))
  {
    Verdict.VerdictTheorem(truth, info, states, actions, k);
    BetweenNotions(history, keys, parts, entries);
    StrictIsStronger(STORE, history);
    assert AllAccepted(entries) <==> forall i :: 0 <= i < |truth| ==> truth[i];
  }
}
