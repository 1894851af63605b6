/** Where src/mr and src/main/mrsequential.go part ways: repeated file names, and a
    reduce task whose own output the decoder can read. */
module MrLimits {
  import opened Collections
  import opened KeyOrder
  import opened MrGroups
  import opened MrOutput
  import opened MrBuckets
  import opened MrWorker
  import opened MrMaster
  import opened MrSystem
  import opened MrRefinement
  import opened MrRuns
  import opened MrRereads

  // ---- an application that counts -----------------------------------------------------------

  /** One 'x' per value. */
  function Tally(key: string, values: seq<string>): string {
    seq(|values|, i => 'x')
  }

  lemma {:induction false} TallyOrderFree()
    ensures OrderFree(Tally)
  {
    forall k, a: seq<string>, b: seq<string> | multiset(a) == multiset(b)
      ensures Tally(k, a) == Tally(k, b)
    {
      assert |multiset(a)| == |a| && |multiset(b)| == |b|;
    }
  }

  const WORD := KeyValue("null", "")

  function OneWord(file: string): seq<KeyValue> {
    [WORD]
  }

  function Counting(files: seq<string>, nReduce: nat, hash: Hash): Job {
    Job(files, nReduce, OneWord, Tally, hash, lines => [])
  }

  function Words(n: nat): seq<KeyValue> {
    seq(n, i => WORD)
  }

  lemma {:induction false} CountRecords(job: Job, ids: seq<int>)
    requires AreIds(job.files, ids) && job.mapf == OneWord
    ensures Records(job, ids) == Words(|ids|)
  {
    if ids != [] {
      CountRecords(job, ids[1..]);
    }
  }

  lemma {:induction false} CountAll(files: seq<string>)
    ensures AllRecords(files, OneWord) == Words(|files|)
  {
    if files != [] {
      CountAll(files[..|files| - 1]);
    }
  }

  /** n words make one line of n marks. */
  lemma {:induction false} TallyWords(n: nat, out: seq<string>)
    requires n > 0
    ensures Reduced(Tally, Words(n), out) <==> out == [Line("null", seq(n, i => 'x'))]
  {
    var line := [Line("null", seq(n, i => 'x'))];
    LessIrreflexive("null");
    assert SortedByKey(Words(n));
    OneRun(Words(n));
    ValuesAt(Words(n));
    assert Output(Tally, Words(n)) == line;
    assert Reduced(Tally, Words(n), line);
    TallyOrderFree();
    if Reduced(Tally, Words(n), out) {
      ReducedUnique(Tally, Words(n), out, line);
    }
  }

  // ---- repeated file names ------------------------------------------------------------------

  lemma {:induction false} IdsLength(files: seq<string>, n: nat)
    requires n <= |files|
    ensures |Ids(files, n)| <= n
    ensures |Ids(files, n)| == n <==> forall m :: 0 <= m < n ==> IsId(files, m)
    ensures n > 0 && n == |files| ==> |Ids(files, n)| > 0
  {
    if n > 0 {
      IdsLength(files, n - 1);
      if n == |files| {
        assert IsId(files, n - 1);
      }
    }
  }

  lemma {:induction false} AllIdsUnique(files: seq<string>)
    ensures Distinct(files) <==> forall m :: 0 <= m < |files| ==> IsId(files, m)
  {
    if forall m :: 0 <= m < |files| ==> IsId(files, m) {
      forall i, j | 0 <= i < j < |files|
        ensures files[i] != files[j]
      {
        assert IsId(files, i);
      }
    }
  }

  /** A finished job of the counting application agrees with the sequential program
      exactly when no file name is given twice. */
  lemma {:induction false} AgreesExactly(files: seq<string>, nReduce: nat, hash: Hash,
                                         states: seq<Sys>, events: seq<Event>, n: nat, out: seq<string>)
    requires MrSystem.Run(Counting(files, nReduce, hash), states, events) && n < |states| && Done(states[n])
    requires Reduced(Tally, AllRecords(files, OneWord), out)
    ensures multiset(AllOutput(Counting(files, nReduce, hash), states[n])) == multiset(out) <==> Distinct(files)
  {
    hide MrSystem.Run, AllOutput, Reduced, OrderFree;
    var job := Counting(files, nReduce, hash);
    TallyOrderFree();
    var ids := Ids(files, |files|);
    UnreadableIsHarmless(job);
    AllIdsUnique(files);
    IdsLength(files, |files|);
    if Distinct(files) {
      RefinesSequential(job, states, events, n, out);
    } else {
      CountRecords(job, ids);
      CountAll(files);
      var few, many := Line("null", seq(|ids|, i => 'x')), Line("null", seq(|files|, i => 'x'));
      TallyWords(|ids|, [few]);
      TallyWords(|files|, out);
      RefinementTheorem(job, states, events, n, [few]);
      assert |few| != |many|;
      assert multiset([few])[few] == 1 && multiset([many])[few] == 0;
    }
  }

  // ---- a readable output file -----------------------------------------------------------------

  /** The lines of the sequential program. */
  function Right(): seq<string> {
    ["null x\n"]
  }

  function Wrong(): seq<string> {
    [" x\n", "null x\n"]
  }

  /** The decoder takes the word null for a record without key and value. */
  function NullReader(lines: seq<string>): seq<KeyValue> {
    if lines == Right() then [KeyValue("", "")] else []
  }

  function NullJob(): Job {
    Job(["f"], 1, OneWord, Tally, k => 0, NullReader)
  }

  lemma {:induction false} ReadsRight()
    ensures NullReader(Right()) == [KeyValue("", "")]
  {
  }

  lemma {:induction false} GroupOfOne(kv: KeyValue)
    ensures Groups([kv]) == [Group(kv.key, [kv.value])]
  {
    OneRun([kv]);
    assert [kv][..0] == [] && Values([]) == [];
    assert Values([kv]) == Values([kv][..0]) + [kv.value] == [kv.value];
  }

  lemma {:induction false} OneOutput()
    ensures Reduced(Tally, [WORD], Right())
  {
    TallyWords(1, Right());
    assert Words(1) == [WORD];
    assert seq(1, i => 'x') == "x";
    assert Line("null", "x") == "null x\n";
  }

  /** Reading its own earlier output adds a line. */
  lemma {:induction false} TwoOutputs()
    ensures Reduced(Tally, [WORD], Right())
    ensures Reduced(Tally, [WORD, KeyValue("", "")], Wrong())
  {
    OneOutput();
    var s := [KeyValue("", ""), WORD];
    assert SortedByKey(s);
    assert s[..1] == [KeyValue("", "")] && s[1..] == [WORD];
    assert multiset(s) == multiset([WORD, KeyValue("", "")]);
    GroupsSplit(s, 1);
    GroupOfOne(WORD);
    GroupOfOne(KeyValue("", ""));
    hide Groups, SortedByKey;
    assert Groups(s) == [Group("", [""]), Group("null", [""])];
    TwoGroups();
    assert Output(Tally, s) == Wrong();
  }

  lemma {:induction false} TwoGroups()
    ensures Lines(Tally, [Group("", [""]), Group("null", [""])]) == Wrong()
  {
    assert Tally("", [""]) == "x" && Tally("null", [""]) == "x";
    assert Line("", "x") == " x\n" && Line("null", "x") == "null x\n";
  }

  lemma {:induction false} TwoLines(s: Sys)
    requires 0 in s.outs && s.outs[0] == Wrong()
    ensures multiset(AllOutput(NullJob(), s)) != multiset(Right())
  {
    var outs := OutputFiles(NullJob(), s);
    assert |outs| == 1 && outs[0] == Wrong() && outs[..0] == [];
    assert Flatten(outs[..0]) == [];
    assert Flatten(outs) == Flatten(outs[..0]) + outs[0] == Wrong();
    assert |multiset(Wrong())| == 2 && |multiset(Right())| == 1;
  }

  lemma {:induction false} NullRecords()
    ensures Whole(NullJob(), 0) == [WORD]
  {
    var job := NullJob();
    var ids := Ids(job.files, 1);
    assert IsId(job.files, 0);
    assert Ids(job.files, 0) == [] && ids == [0];
    CountRecords(job, ids);
    assert Words(1) == [WORD];
    assert [WORD][..0] == [];
    assert Bucket([], job.hash, 1, 0) == [];
    assert Bucket([WORD], job.hash, 1, 0) == [WORD];
  }

  /** A reduce task that is executed a second time finds its own output, takes a record
      from it, and leaves a line that the sequential program does not print. */
  lemma {:induction false} OwnOutputCorrupts() returns (s: Sys)
    ensures Reaches(NullJob(), s) && Done(s)
    ensures Reduced(Tally, AllRecords(["f"], OneWord), Right())
    ensures multiset(AllOutput(NullJob(), s)) != multiset(Right())
  {
    hide Reaches, Reduced, AllOutput, Right, Wrong, Whole;
    NullRecords();
    OneOutput();
    TwoOutputs();
    ReadsRight();
    assert [WORD] + NullReader(Right()) == [WORD, KeyValue("", "")];
    s := RereadRun(NullJob(), 0, Right(), Wrong());
    CountAll(["f"]);
    assert Words(1) == [WORD];
    TwoLines(s);
  }
}
