/** A reduce task that is executed a second time finds its own output under the pattern
    mr-*-r of src/mr/worker.go:85.  When that does harm is decided here: exactly when some
    output, read back, changes what the task prints, some finished run leaves a file that
    its records do not call for. */
module MrRereads {
  import opened Collections
  import opened KeyOrder
  import opened MrGroups
  import opened MrOutput
  import opened MrBuckets
  import opened MrWorker
  import opened MrMaster
  import opened MrScheduler
  import opened MrSystem
  import opened MrRefinement
  import opened MrRuns

  // ---- the map stage -------------------------------------------------------------------

  /** Before the map stage is closed: tasks are fresh or finished. */
  ghost predicate MapStage(job: Job, s: Sys) {
    && Good(job, s) && Alone(s) && s.outs == map[]
    && Shaped(s.master) && |s.master.rtask| == job.nReduce && s.master.nReduce == job.nReduce
    && !s.master.mdone && !s.master.rdone
    && (forall r :: 0 <= r < job.nReduce ==> s.master.rtask[r] == FRESH)
    && (forall f :: f in s.master.mmap ==> f in job.files && (s.master.mmap[f] == FRESH || s.master.mmap[f] == FINISHED))
  }

  ghost function FreshNames(s: Sys): set<string> {
    set f | f in s.master.mmap && s.master.mmap[f] == FRESH
  }

  lemma {:induction false} OneMap(job: Job, s: Sys, f: string) returns (s': Sys)
    requires MapStage(job, s) && f in FreshNames(s) && f != "" && job.nReduce > 0
    ensures MapStage(job, s') && FreshNames(s') == FreshNames(s) - {f}
  {
    hide Good, Leads, Give, MayPick;
    MapHandOut(s.master, Request(s, 1), 0, f);
    GoodReaches(job, s);
    var s1, reply := Asks(job, Start(job), s, 0, f);
    var s2 := ExecutesMap(job, Start(job), s1, reply);
    GoodReaches(job, s2);
    s' := ReportsIn(job, Start(job), s2, MapReport(f));
  }

  /** All map tasks are executed and the stage is closed. */
  lemma {:induction false} ClosesMaps(job: Job) returns (s: Sys)
    requires job.nReduce > 0 && "" !in job.files
    ensures Good(job, s) && Alone(s) && s.outs == map[] && Shaped(s.master) && |s.master.rtask| == job.nReduce
    ensures s.master.mdone && !s.master.rdone && forall r :: 0 <= r < job.nReduce ==> s.master.rtask[r] == FRESH
  {
    hide Good, Give, MayPick, MapStage;
    s := FirstJoin(job);
    while FreshNames(s) != {}
      invariant MapStage(job, s)
      decreases FreshNames(s)
    {
      var f :| f in FreshNames(s);
      FreshIsFile(job, s, f);
      s := OneMap(job, s, f);
    }
    var s1 := s;
    MapsDone(job, s1);
    var s2, reply := Asks(job, Start(job), s1, 0, "");
    s := Sleeps(job, Start(job), s2, reply);
  }

  lemma {:induction false} FreshIsFile(job: Job, s: Sys, f: string)
    requires MapStage(job, s) && f in FreshNames(s)
    ensures f in job.files
  {
  }

  lemma {:induction false} MapsDone(job: Job, s: Sys)
    requires MapStage(job, s) && FreshNames(s) == {}
    ensures Good(job, s) && Reaches(job, s) && Alone(s) && Shaped(s.master) && MayPick(s.master, "") && s.outs == map[]
    ensures var (m, reply) := Give(s.master, Request(s, 1), 0, "");
            && m.mdone && !m.rdone && reply.taskType == 0 && Shaped(m) && |m.rtask| == job.nReduce
            && forall r :: 0 <= r < job.nReduce ==> m.rtask[r] == FRESH
  {
    hide Good, Give, MayPick;
    GoodReaches(job, s);
    forall f | f in s.master.mmap
      ensures s.master.mmap[f] == FINISHED
    {
      assert f !in FreshNames(s);
    }
    assert AllMapsFinished(s.master);
    MapsClose(s.master, Request(s, 1), 0, "");
  }

  lemma {:induction false} FirstJoin(job: Job) returns (s: Sys)
    ensures MapStage(job, s)
  {
    Starts(job);
    hide Good, Leads, SysInv;
    s := Become(Start(job), 1, Idle);
    GoodNext(job, Start(job), Join(1), s);
  }

  // ---- reduce tasks --------------------------------------------------------------------

  /** A reduce task reads the files of all map tasks. */
  lemma {:induction false} ReadsAll(job: Job, s: Sys, reply: MrReply) returns (s': Sys, box: seq<KeyValue>)
    requires Good(job, s) && s.master.mdone && At1(s, Assigned(reply)) && reply.taskType == REDUCE && 0 <= reply.taskId < job.nReduce
    ensures Good(job, s') && At1(s', Reducing(reply.taskId, [], reply.taskId in s.outs, box)) && SameFiles(s, s') && s'.master == s.master
    ensures TodoOk(job, reply.taskId, [], box)
  {
    hide Leads, SysInv, Good, TodoOk, Ids;
    var r, todo := reply.taskId, Ids(job.files, |job.files|);
    GlobFacts(job, s, r);
    s' := Become(s, 1, Reducing(r, todo, r in s.outs, []));
    GoodNext(job, s, Glob(1, todo), s');
    box := [];
    while todo != []
      invariant Good(job, s') && At1(s', Reducing(r, todo, r in s.outs, box)) && SameFiles(s, s') && s'.master == s.master
      invariant TodoOk(job, r, todo, box) && forall i :: 0 <= i < |todo| ==> (todo[i], r) in s.inter
      decreases |todo|
    {
      assert (todo[0], r) in s.inter;
      var kvs := s'.inter[(todo[0], r)];
      StoredFile(job, s', todo[0], r);
      ReadOne(job, r, todo, box, kvs);
      GoodReaches(job, s');
      s' := Reads(job, Start(job), s', r, todo, r in s.outs, box);
      todo, box := todo[1..], box + kvs;
    }
  }

  lemma {:induction false} GlobFacts(job: Job, s: Sys, r: int)
    requires Good(job, s) && s.master.mdone && 0 <= r < job.nReduce
    ensures var ids := Ids(job.files, |job.files|);
            && Distinct(ids) && (forall m :: m in ids <==> (m, r) in s.inter)
            && TodoOk(job, r, ids, []) && forall i :: 0 <= i < |ids| ==> (ids[i], r) in s.inter
  {
    hide TodoOk, Ids, StoreOk, MapDone;
    var ids := Ids(job.files, |job.files|);
    FilesAreIds(job, s, r);
    GlobFindsAll(job, s, r, ids);
    forall i | 0 <= i < |ids|
      ensures (ids[i], r) in s.inter
    {
      assert ids[i] in ids;
    }
  }

  lemma {:induction false} StoredFile(job: Job, s: Sys, m: int, r: int)
    requires Good(job, s) && (m, r) in s.inter
    ensures FileOk(job, m, r, s.inter[(m, r)])
  {
    hide FileOk, MasterOk, PhaseOk, ReportOk, OutsOk;
  }

  /** A first execution writes `out`, unless there are no records. */
  lemma {:induction false} Writes(job: Job, s: Sys, r: int, box: seq<KeyValue>, out: seq<string>) returns (s': Sys)
    requires Good(job, s) && At1(s, Reducing(r, [], false, box)) && TodoOk(job, r, [], box)
    requires 0 <= r < job.nReduce && Reduced(job.reducef, Whole(job, r), out)
    ensures Good(job, s') && At1(s', Reporting(ReduceReport(r))) && s'.inter == s.inter && s'.master == s.master
    ensures s'.outs == if Whole(job, r) == [] then s.outs else s.outs[r := out]
  {
    hide Leads, SysInv, Good, TodoOk, Reduced, Whole;
    BoxComplete(job, r, box);
    SameReduced(job.reducef, Whole(job, r), box, out);
    var s1 := if box == [] then s else s.(outs := s.outs[r := out]);
    s' := Become(s1, 1, Reporting(ReduceReport(r)));
    GoodNext(job, s, WriteOutput(1, out), s');
  }

  /** Tasks below k are finished, except that `late` was executed, leaving `out`, and not
      reported; the others are fresh. */
  ghost predicate ReduceStage(job: Job, s: Sys, late: nat, out: seq<string>, k: nat) {
    && Good(job, s) && Alone(s) && Shaped(s.master) && |s.master.rtask| == job.nReduce
    && s.master.mdone && !s.master.rdone
    && TasksAt(s.master, late, k)
    && (forall r :: r in s.outs ==> 0 <= r < k)
    && (late < k ==> late in s.outs && s.outs[late] == out)
  }

  predicate TaskAt(m: MasterState, late: nat, k: nat, r: nat)
    requires r < |m.rtask| == |m.rstart|
  {
    if r >= k then m.rtask[r] == FRESH
    else if r == late then m.rtask[r] == RUNNING && m.rstart[r] == At(0)
    else m.rtask[r] == FINISHED
  }

  ghost predicate TasksAt(m: MasterState, late: nat, k: nat)
    requires |m.rtask| == |m.rstart|
  {
    forall r :: 0 <= r < |m.rtask| ==> TaskAt(m, late, k, r)
  }

  lemma {:induction false} OneReduce(job: Job, s: Sys, late: nat, out: seq<string>, k: nat) returns (s': Sys)
    requires ReduceStage(job, s, late, out, k) && k < job.nReduce && late < job.nReduce
    requires OutOk(job, late, out) && Whole(job, late) != []
    ensures ReduceStage(job, s', late, out, k + 1)
  {
    hide Good, Give, MayPick, Reduced, Whole, TodoOk, Leads, SysInv;
    GoodReaches(job, s);
    var pick := FreeChoice(s.master);
    forall r | 0 <= r <= k
      ensures s.master.rtask[r] == FRESH <==> r == k
    {
      assert TaskAt(s.master, late, k, r);
    }
    ReduceHandOut(s.master, Request(s, 1), 0, pick, k);
    var s1, reply := Asks(job, Start(job), s, 0, pick);
    var s2, box := ReadsAll(job, s1, reply);
    var lines := out;
    if k != late {
      lines := SomeOutput(job.reducef, Whole(job, k));
    }
    var s3 := Writes(job, s2, k, box, lines);
    TasksMove(s.master, s3.master, late, k);
    if k == late {
      s' := Restarts(job, s3);
    } else {
      GoodReaches(job, s3);
      s' := ReportsIn(job, Start(job), s3, ReduceReport(k));
    }
  }

  lemma {:induction false} TasksMove(m: MasterState, m': MasterState, late: nat, k: nat)
    requires Shaped(m) && Shaped(m') && k < |m.rtask| == |m'.rtask|
    requires TasksAt(m, late, k)
    requires m'.rtask == m.rtask[k := RUNNING] && m'.rstart == m.rstart[k := At(0)]
    ensures k == late ==> TasksAt(m', late, k + 1)
    ensures k != late ==> TasksAt(Finish(m', ReduceReport(k)), late, k + 1)
  {
    var next := k + 1;
    forall r | 0 <= r < |m.rtask|
      ensures k == late ==> TaskAt(m', late, next, r)
      ensures k != late ==> TaskAt(Finish(m', ReduceReport(k)), late, next, r)
    {
      assert TaskAt(m, late, k, r);
    }
  }

  /** The worker dies before it reports, and another one comes. */
  lemma {:induction false} Restarts(job: Job, s: Sys) returns (s': Sys)
    requires Good(job, s) && 1 in s.workers && s.workers.Keys == {1}
    ensures Good(job, s') && Alone(s') && SameFiles(s, s') && s'.master == s.master
  {
    hide Leads, SysInv, Good;
    var s1 := s.(workers := s.workers - {1}, ids := s.ids - {1});
    GoodNext(job, s, Crash(1), s1);
    s' := Become(s1, 1, Idle);
    GoodNext(job, s1, Join(1), s');
  }

  /** All tasks but one are finished; that one was executed and not reported. */
  lemma {:induction false} AllButOne(job: Job, late: nat, out: seq<string>) returns (s: Sys)
    requires late < job.nReduce && "" !in job.files && OutOk(job, late, out) && Whole(job, late) != []
    ensures ReduceStage(job, s, late, out, job.nReduce)
  {
    hide Good, OutOk, Whole;
    s := ClosesMaps(job);
    var k: nat := 0;
    while k < job.nReduce
      invariant k <= job.nReduce && ReduceStage(job, s, late, out, k)
    {
      s := OneReduce(job, s, late, out, k);
      k := k + 1;
    }
  }

  // ---- the second execution ------------------------------------------------------------

  const LATER := PATIENCE + 1

  /** The last task is taken back, and handed out again. */
  lemma {:induction false} TakesBack(m: MasterState, args: MrArgs, pick: string, late: nat)
    requires Shaped(m) && m.mdone && !m.rdone && late < |m.rtask| && TasksAt(m, late, |m.rtask|)
    ensures var (m', reply) := Give(m, args, LATER, pick);
            && m'.rtask == m.rtask[late := FRESH] && m'.rstart == m.rstart[late := Zero]
            && m'.mdone && !m'.rdone && reply.taskType == 0
  {
    forall r | 0 <= r < |m.rtask|
      ensures m.rtask[r] == if r == late then RUNNING else FINISHED
    {
      assert TaskAt(m, late, |m.rtask|, r);
    }
    assert TaskAt(m, late, |m.rtask|, late);
    assert FirstFresh(m.rtask) == |m.rtask|;
    assert FirstUnfinished(m.rtask) == late;
  }

  /** Handed out a second time, the task reads its records and its own output. */
  lemma {:induction false} Again(job: Job, s: Sys, late: nat, out: seq<string>) returns (s': Sys, box: seq<KeyValue>)
    requires ReduceStage(job, s, late, out, job.nReduce) && late < job.nReduce
    ensures Good(job, s') && At1(s', Reducing(late, [], true, box)) && TodoOk(job, late, [], box)
    ensures late in s'.outs && s'.outs[late] == out && Shaped(s'.master) && s'.master.mdone && !s'.master.rdone
    ensures |s'.master.rtask| == job.nReduce && forall r :: 0 <= r < job.nReduce && r != late ==> s'.master.rtask[r] == FINISHED
  {
    hide Good, Give, MayPick, TodoOk, Leads, SysInv;
    GoodReaches(job, s);
    var pick := FreeChoice(s.master);
    forall r | 0 <= r < job.nReduce
      ensures s.master.rtask[r] == if r == late then RUNNING else FINISHED
    {
      assert TaskAt(s.master, late, job.nReduce, r);
    }
    TakesBack(s.master, Request(s, 1), pick, late);
    var s1, none := Asks(job, Start(job), s, LATER, pick);
    var s2 := Sleeps(job, Start(job), s1, none);
    var pick' := FreeChoice(s2.master);
    ReduceHandOut(s2.master, Request(s2, 1), LATER, pick', late);
    var s3, reply := Asks(job, Start(job), s2, LATER, pick');
    s', box := ReadsAll(job, s3, reply);
  }

  /** What a second execution prints ends up as the output of a finished job. */
  lemma {:induction false} RereadRun(job: Job, late: nat, out: seq<string>, out': seq<string>) returns (s: Sys)
    requires late < job.nReduce && "" !in job.files && OutOk(job, late, out) && Rereads(job, late, out, out')
    ensures Reaches(job, s) && Done(s) && late in s.outs && s.outs[late] == out'
  {
    hide Good, OutOk, Whole, ReduceStage, TodoOk, Reduced, Give, MayPick, Leads;
    var s0 := AllButOne(job, late, out);
    var s1, box := Again(job, s0, late, out);
    BoxComplete(job, late, box);
    GoodReaches(job, s1);
    var both := box + job.parse(out);
    var s2 := Become(s1, 1, Reducing(late, [], false, both));
    Extend(job, Start(job), s1, ReadOutput(1), s2);
    assert multiset(both) == multiset(Whole(job, late) + job.parse(out));
    SameReduced(job.reducef, Whole(job, late) + job.parse(out), both, out');
    var s3 := Become(s2.(outs := s2.outs[late := out']), 1, Reporting(ReduceReport(late)));
    Extend(job, Start(job), s2, WriteOutput(1, out'), s3);
    var s4 := ReportsIn(job, Start(job), s3, ReduceReport(late));
    var pick := FreeChoice(s4.master);
    ClosesReduces(s4.master, Request(s4, 1), LATER, pick);
    var reply;
    s, reply := Asks(job, Start(job), s4, LATER, pick);
  }

  /** Every finished run leaves the files that the records call for, exactly when no
      output, read back, changes what its task prints. */
  lemma {:induction false} RereadsExact(job: Job)
    requires "" !in job.files
    ensures HarmlessReread(job) <==> forall s :: Reaches(job, s) && Done(s) ==> FilesRight(job, s)
  {
    hide OutOk, Rereads, SysInv;
    if HarmlessReread(job) {
      forall s | Reaches(job, s) && Done(s)
        ensures FilesRight(job, s)
      {
        var states, events :| MrSystem.Run(job, states, events) && states[|events|] == s;
        SysInvRun(job, states, events, |events|);
        DoneFiles(job, s);
      }
    } else {
      var r, out, out' :| OutOk(job, r, out) && Rereads(job, r, out, out') && !OutOk(job, r, out');
      RereadRange(job, r, out, out');
      var s := RereadRun(job, r, out, out');
      assert !FilesRight(job, s);
    }
  }

  lemma {:induction false} RereadRange(job: Job, r: int, out: seq<string>, out': seq<string>)
    requires Rereads(job, r, out, out')
    ensures 0 <= r < job.nReduce
  {
  }
}
