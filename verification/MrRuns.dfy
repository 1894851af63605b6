/** Runs of master and workers, put together step by step. */
module MrRuns {
  import opened Collections
  import opened KeyOrder
  import opened MrGroups
  import opened MrOutput
  import opened MrBuckets
  import opened MrWorker
  import opened MrMaster
  import opened MrScheduler
  import opened MrSystem
  import opened MrRefinement

  /** Some steps lead from a to s. */
  ghost predicate Leads(job: Job, a: Sys, s: Sys) {
    exists states, events :: Steps(job, states, events) && states[0] == a && states[|events|] == s
  }

  /** Some run of the job ends in s. */
  ghost predicate Reaches(job: Job, s: Sys) {
    Leads(job, Start(job), s)
  }

  lemma {:induction false} Stays(job: Job, s: Sys)
    ensures Leads(job, s, s)
  {
    assert Steps(job, [s], []);
  }

  lemma {:induction false} Extend(job: Job, a: Sys, s: Sys, e: Event, s': Sys)
    requires Leads(job, a, s) && Next(job, s, e, s')
    ensures Leads(job, a, s')
  {
    hide Next;
    var states, events :| Steps(job, states, events) && states[0] == a && states[|events|] == s;
    assert Steps(job, states + [s'], events + [e]);
  }

  lemma {:induction false} LeadsOn(job: Job, a: Sys, b: Sys, c: Sys)
    requires Leads(job, a, b) && Leads(job, b, c)
    ensures Leads(job, a, c)
  {
    hide Next;
    var states, events :| Steps(job, states, events) && states[0] == b && states[|events|] == c;
    hide Leads;
    for k := 0 to |events|
      invariant Leads(job, a, states[k])
    {
      Extend(job, a, states[k], events[k], states[k + 1]);
    }
  }

  /** Reached by some run, with the invariant of the job. */
  ghost predicate Good(job: Job, s: Sys) {
    Reaches(job, s) && SysInv(job, s)
  }

  lemma {:induction false} Starts(job: Job)
    ensures Good(job, Start(job))
  {
    Stays(job, Start(job));
    StartOk(job);
  }

  lemma {:induction false} GoodReaches(job: Job, s: Sys)
    requires Good(job, s)
    ensures Reaches(job, s)
  {
  }

  lemma {:induction false} GoodStep(job: Job, a: Sys, s: Sys, e: Event, s': Sys)
    requires Leads(job, a, s) && Next(job, s, e, s')
    ensures Leads(job, a, s')
    ensures Good(job, s) && WritesFirst(job, s, e) ==> Good(job, s')
  {
    hide Leads, SysInv, Next, WritesFirst;
    Extend(job, a, s, e, s');
    if Good(job, s) && WritesFirst(job, s, e) {
      Extend(job, Start(job), s, e, s');
      NextKeeps(job, s, e, s');
    }
  }

  lemma {:induction false} GoodNext(job: Job, s: Sys, e: Event, s': Sys)
    requires Good(job, s) && Next(job, s, e, s') && WritesFirst(job, s, e)
    ensures Good(job, s')
  {
    hide Leads, SysInv, Next, WritesFirst;
    GoodStep(job, Start(job), s, e, s');
  }

  // ---- what an ask comes to --------------------------------------------------------------

  /** Handing out a map task. */
  lemma {:induction false} MapHandOut(s: MasterState, args: MrArgs, now: int, f: string)
    requires Shaped(s) && !s.mdone && HasStatus(s, f, FRESH)
    ensures MayPick(s, f)
    ensures var (s', reply) := Give(s, args, now, f);
            && s'.mmap == s.mmap[f := RUNNING] && s'.rtask == s.rtask && s'.rstart == s.rstart
            && s'.nReduce == s.nReduce && !s'.mdone && s'.rdone == s.rdone
            && reply.taskType == MAP && reply.taskName == f && reply.nReduce == s.nReduce
  {
  }

  /** With every map task finished the stage is closed. */
  lemma {:induction false} MapsClose(m: MasterState, args: MrArgs, now: int, pick: string)
    requires AllMapsFinished(m) && Shaped(m) && !m.mdone
    ensures MayPick(m, pick)
    ensures var (m', reply) := Give(m, args, now, pick);
            m'.mdone && m'.rdone == m.rdone && reply.taskType == 0 && m'.rtask == m.rtask && m'.rstart == m.rstart
  {
    assert !HasStatus(m, pick, FRESH);
  }

  /** Handing out reduce task k. */
  lemma {:induction false} ReduceHandOut(m: MasterState, args: MrArgs, now: int, pick: string, k: nat)
    requires Shaped(m) && m.mdone && !m.rdone && k < |m.rtask| && m.rtask[k] == FRESH
    requires forall r :: 0 <= r < k ==> m.rtask[r] != FRESH
    ensures var (m', reply) := Give(m, args, now, pick);
            && m'.rtask == m.rtask[k := RUNNING] && m'.rstart == m.rstart[k := At(now)]
            && m'.mdone && !m'.rdone && reply.taskType == REDUCE && reply.taskId == k
  {
    assert FirstFresh(m.rtask) == k;
  }

  /** With every reduce task finished the stage is closed. */
  lemma {:induction false} ClosesReduces(m: MasterState, args: MrArgs, now: int, pick: string)
    requires Shaped(m) && m.mdone && !m.rdone && forall r :: 0 <= r < |m.rtask| ==> m.rtask[r] == FINISHED
    ensures var (m', reply) := Give(m, args, now, pick); m'.mdone && m'.rdone
  {
    assert FirstFresh(m.rtask) == |m.rtask|;
    assert FirstUnfinished(m.rtask) == |m.rtask|;
  }

  // ---- what the only worker does ---------------------------------------------------------

  predicate SameFiles(s: Sys, s': Sys) {
    s'.inter == s.inter && s'.outs == s.outs
  }

  /** The only worker is idle. */
  predicate Alone(s: Sys) {
    s.workers == map[1 := Idle]
  }

  predicate At1(s: Sys, p: Phase) {
    s.workers == map[1 := p]
  }

  /** The worker asks and is given a reply. */
  lemma {:induction false} Asks(job: Job, a: Sys, s: Sys, now: int, pick: string) returns (s': Sys, reply: MrReply)
    requires Leads(job, a, s) && Alone(s) && MayPick(s.master, pick) && Shaped(s.master)
    ensures Leads(job, a, s') && (Good(job, s) ==> Good(job, s')) && At1(s', Assigned(reply))
    ensures SameFiles(s, s') && s'.mail == s.mail
    ensures (s'.master, reply) == Give(s.master, Request(s, 1), now, pick)
  {
    hide Leads, Good, Give, MayPick;
    reply := Give(s.master, Request(s, 1), now, pick).1;
    var m := Give(s.master, Request(s, 1), now, pick).0;
    s' := Become(Learn(s.(master := m), 1, reply), 1, Assigned(reply));
    GoodStep(job, a, s, Ask(1, now, pick), s');
  }

  lemma {:induction false} Sleeps(job: Job, a: Sys, s: Sys, reply: MrReply) returns (s': Sys)
    requires Leads(job, a, s) && At1(s, Assigned(reply)) && reply.taskType == 0
    ensures Leads(job, a, s') && (Good(job, s) ==> Good(job, s')) && Alone(s') && SameFiles(s, s') && s'.master == s.master
  {
    hide Leads, Good;
    s' := Become(s, 1, Idle);
    GoodStep(job, a, s, Sleep(1), s');
  }

  /** A report is sent and delivered. */
  lemma {:induction false} ReportsIn(job: Job, a: Sys, s: Sys, args: MrArgs) returns (s': Sys)
    requires Leads(job, a, s) && At1(s, Reporting(args))
    ensures Leads(job, a, s') && (Good(job, s) ==> Good(job, s')) && Alone(s') && SameFiles(s, s')
    ensures s'.master == Finish(s.master, args)
  {
    hide Leads, Good, Finish;
    var s1 := Become(s.(mail := s.mail + {args}), 1, Idle);
    GoodStep(job, a, s, Send(1), s1);
    s' := s1.(master := Finish(s1.master, args));
    GoodStep(job, a, s1, Deliver(args), s');
  }

  // ---- a map task ------------------------------------------------------------------------

  /** doMap has a bucket for every record of the file. */
  predicate CanMap(job: Job, f: string) {
    f != "" && (job.nReduce == 0 ==> job.mapf(f) == [])
  }

  /** The buckets of a file's records. */
  ghost function BucketsOf(job: Job, f: string): (buckets: seq<seq<KeyValue>>)
    requires CanMap(job, f)
    ensures Partitioned(job, job.mapf(f), buckets, job.nReduce)
  {
    seq(job.nReduce, r requires 0 <= r < job.nReduce => Bucket(job.mapf(f), job.hash, job.nReduce, r))
  }

  /** A map task is executed up to its report. */
  lemma {:induction false} ExecutesMap(job: Job, a: Sys, s: Sys, reply: MrReply) returns (s': Sys)
    requires Leads(job, a, s) && At1(s, Assigned(reply))
    requires reply.taskType == MAP && CanMap(job, reply.taskName) && reply.nReduce == job.nReduce
    ensures Leads(job, a, s') && (Good(job, s) ==> Good(job, s'))
    ensures At1(s', Reporting(MapReport(reply.taskName))) && s'.outs == s.outs && s'.master == s.master
  {
    hide Leads, Good, Partitioned;
    var name, m, buckets := reply.taskName, reply.mapId, BucketsOf(job, reply.taskName);
    s' := CallsMap(job, a, s, reply, buckets);
    var i: nat := 0;
    while i < job.nReduce
      invariant i <= job.nReduce
      invariant Leads(job, a, s') && (Good(job, s) ==> Good(job, s'))
      invariant At1(s', Mapping(name, m, buckets, i)) && s'.outs == s.outs && s'.master == s.master
    {
      s' := Renames(job, a, s', name, m, buckets, i);
      i := i + 1;
    }
    s' := EndsMap(job, a, s', name, m, buckets);
  }

  lemma {:induction false} CallsMap(job: Job, a: Sys, s: Sys, reply: MrReply, buckets: seq<seq<KeyValue>>) returns (s': Sys)
    requires Leads(job, a, s) && At1(s, Assigned(reply)) && RunsMap(reply) && reply.nReduce == job.nReduce
    requires Partitioned(job, job.mapf(reply.taskName), buckets, job.nReduce)
    ensures Leads(job, a, s') && (Good(job, s) ==> Good(job, s')) && |buckets| == job.nReduce
    ensures At1(s', Mapping(reply.taskName, reply.mapId, buckets, 0)) && s'.outs == s.outs && s'.master == s.master
  {
    hide Leads, Good;
    s' := Become(s, 1, Mapping(reply.taskName, reply.mapId, buckets, 0));
    GoodStep(job, a, s, CallMap(1, job.mapf(reply.taskName), buckets), s');
  }

  lemma {:induction false} EndsMap(job: Job, a: Sys, s: Sys, name: string, m: int, buckets: seq<seq<KeyValue>>) returns (s': Sys)
    requires Leads(job, a, s) && At1(s, Mapping(name, m, buckets, |buckets|))
    ensures Leads(job, a, s') && (Good(job, s) ==> Good(job, s'))
    ensures At1(s', Reporting(MapReport(name))) && s'.outs == s.outs && s'.master == s.master
  {
    hide Leads, Good;
    s' := Become(s, 1, Reporting(MapReport(name)));
    GoodStep(job, a, s, EndMap(1), s');
  }

  lemma {:induction false} Renames(job: Job, a: Sys, s: Sys, name: string, m: int, buckets: seq<seq<KeyValue>>, i: nat) returns (s': Sys)
    requires Leads(job, a, s) && At1(s, Mapping(name, m, buckets, i)) && i < |buckets|
    ensures Leads(job, a, s') && (Good(job, s) ==> Good(job, s'))
    ensures At1(s', Mapping(name, m, buckets, i + 1)) && s'.outs == s.outs && s'.master == s.master
  {
    hide Leads, Good;
    s' := Become(s.(inter := s.inter[(m, i) := buckets[i]]), 1, Mapping(name, m, buckets, i + 1));
    GoodStep(job, a, s, Rename(1), s');
  }

  // ---- a reduce task ---------------------------------------------------------------------

  /** The next file is read. */
  lemma {:induction false} Reads(job: Job, a: Sys, s: Sys, r: int, todo: seq<int>, readOut: bool, box: seq<KeyValue>) returns (s': Sys)
    requires Leads(job, a, s) && At1(s, Reducing(r, todo, readOut, box)) && todo != [] && (todo[0], r) in s.inter
    ensures Leads(job, a, s') && (Good(job, s) ==> Good(job, s')) && SameFiles(s, s') && s'.master == s.master
    ensures At1(s', Reducing(r, todo[1..], readOut, box + s.inter[(todo[0], r)]))
  {
    hide Leads, Good;
    s' := Become(s, 1, Reducing(r, todo[1..], readOut, box + s.inter[(todo[0], r)]));
    GoodStep(job, a, s, ReadFile(1), s');
  }

  /** Every list of records can be sorted and reduced. */
  lemma {:induction false} SomeOutput(reducef: Reducer, kvs: seq<KeyValue>) returns (out: seq<string>)
    ensures Reduced(reducef, kvs, out)
  {
    var s := SortedRecords(kvs);
    out := Output(reducef, s);
  }

  lemma {:induction false} SortedRecords(kvs: seq<KeyValue>) returns (s: seq<KeyValue>)
    ensures SortedByKey(s) && multiset(s) == multiset(kvs)
  {
    s := [];
    if kvs != [] {
      var n := |kvs| - 1;
      var before := SortedRecords(kvs[..n]);
      var kv := kvs[n];
      var k := 0;
      while k < |before| && AtMost(before[k].key, kv.key)
        invariant 0 <= k <= |before|
        invariant forall j :: 0 <= j < k ==> AtMost(before[j].key, kv.key)
      {
        k := k + 1;
      }
      s := before[..k] + [kv] + before[k..];
      InsertedSorted(before, kv, k);
      assert before == before[..k] + before[k..];
      assert kvs == kvs[..n] + [kv];
    }
  }

}
