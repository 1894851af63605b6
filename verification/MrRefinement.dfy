/** The distributed run refines the sequential program: once Done answers true, the
    output files together hold the lines that src/main/mrsequential.go prints. */
module MrRefinement {
  import opened MrGroups
  import opened Collections
  import opened MrOutput
  import opened MrBuckets
  import opened MrWorker
  import opened MrMaster
  import opened MrScheduler
  import opened MrSystem

  // ---- the records of the map tasks -------------------------------------------------------

  /** m is the map id of some task: a repeated name keeps its last position. */
  predicate IsId(files: seq<string>, m: int) {
    0 <= m < |files| && LastIndex(files, files[m]) == m
  }

  function Ids(files: seq<string>, n: nat): (ids: seq<int>)
    requires n <= |files|
    ensures Distinct(ids)
    ensures forall m :: m in ids <==> IsId(files, m) && m < n
  {
    if n == 0 then []
    else
      var before := Ids(files, n - 1);
      if IsId(files, n - 1) then before + [n - 1] else before
  }

  ghost predicate AreIds(files: seq<string>, ids: seq<int>) {
    forall i :: 0 <= i < |ids| ==> IsId(files, ids[i])
  }

  /** The records of the given map tasks. */
  ghost function Records(job: Job, ids: seq<int>): seq<KeyValue>
    requires AreIds(job.files, ids)
  {
    if ids == [] then [] else job.mapf(job.files[ids[0]]) + Records(job, ids[1..])
  }

  /** The records of all map tasks. */
  ghost function Everything(job: Job): seq<KeyValue> {
    Records(job, Ids(job.files, |job.files|))
  }

  lemma {:induction false} RecordsConcat(job: Job, a: seq<int>, b: seq<int>)
    requires AreIds(job.files, a) && AreIds(job.files, b)
    ensures Records(job, a + b) == Records(job, a) + Records(job, b)
  {
    if a == [] {
      assert a + b == b;
    } else {
      RecordsConcat(job, a[1..], b);
      assert (a + b)[1..] == a[1..] + b;
    }
  }

  lemma {:induction false} RecordsDrop(job: Job, ids: seq<int>, k: nat)
    requires AreIds(job.files, ids) && k < |ids|
    ensures multiset(Records(job, ids)) ==
            multiset(job.mapf(job.files[ids[k]])) + multiset(Records(job, ids[..k] + ids[k + 1..]))
  {
    var a, b := ids[..k], ids[k + 1..];
    assert ids == a + ([ids[k]] + b);
    assert ([ids[k]] + b)[1..] == b;
    RecordsConcat(job, a, [ids[k]] + b);
    RecordsConcat(job, a, b);
  }

  /** The order of the map tasks does not matter. */
  lemma {:induction false} RecordsPermute(job: Job, a: seq<int>, b: seq<int>)
    requires AreIds(job.files, a) && AreIds(job.files, b) && multiset(a) == multiset(b)
    ensures multiset(Records(job, a)) == multiset(Records(job, b))
    decreases |a|
  {
    if a == [] {
      assert |multiset(b)| == |b|;
    } else {
      var k := MatchFirst(a, b);
      RecordsPermute(job, a[1..], b[..k] + b[k + 1..]);
      RecordsDrop(job, b, k);
    }
  }

  lemma {:induction false} MatchFirst(a: seq<int>, b: seq<int>) returns (k: nat)
    requires a != [] && multiset(a) == multiset(b)
    ensures k < |b| && b[k] == a[0] && multiset(a[1..]) == multiset(b[..k] + b[k + 1..])
  {
    assert a[0] in multiset(b);
    k :| k < |b| && b[k] == a[0];
    var tail, rest := a[1..], b[..k] + b[k + 1..];
    assert a == [a[0]] + tail;
    RemoveOne(b, k);
    assert multiset(tail) + multiset{a[0]} == multiset(rest) + multiset{a[0]};
    CancelOne(multiset(tail), multiset(rest), a[0]);
  }

  // ---- what is true of the files ------------------------------------------------------------

  /** The share of reduce task r in the records of the given map tasks. */
  ghost function Share(job: Job, ids: seq<int>, r: int): seq<KeyValue>
    requires AreIds(job.files, ids) && 0 <= r < job.nReduce
  {
    Bucket(Records(job, ids), job.hash, job.nReduce, r)
  }

  ghost function Whole(job: Job, r: int): seq<KeyValue>
    requires 0 <= r < job.nReduce
  {
    Share(job, Ids(job.files, |job.files|), r)
  }

  ghost predicate FileOk(job: Job, m: int, r: int, kvs: seq<KeyValue>) {
    IsId(job.files, m) && 0 <= r < job.nReduce && multiset(kvs) == multiset(Share(job, [m], r))
  }

  /** Every intermediate file holds the share of its map task. */
  ghost predicate StoreOk(job: Job, inter: map<(int, int), seq<KeyValue>>) {
    forall m, r :: (m, r) in inter ==> FileOk(job, m, r, inter[(m, r)])
  }

  ghost predicate OutOk(job: Job, r: int, out: seq<string>) {
    0 <= r < job.nReduce && Reduced(job.reducef, Whole(job, r), out)
  }

  ghost predicate OutsOk(job: Job, outs: map<int, seq<string>>) {
    forall r :: r in outs ==> OutOk(job, r, outs[r]) && Whole(job, r) != []
  }

  /** The files of the map task exist. */
  ghost predicate MapDone(job: Job, s: Sys, name: string) {
    && name in job.files
    && (job.nReduce == 0 ==> job.mapf(name) == [])
    && forall r :: 0 <= r < job.nReduce ==> (LastIndex(job.files, name), r) in s.inter
  }

  /** The output of the reduce task exists unless it has no records. */
  ghost predicate ReduceDone(job: Job, s: Sys, r: int) {
    0 <= r < job.nReduce && (r in s.outs || Whole(job, r) == [])
  }

  ghost predicate ReportOk(job: Job, s: Sys, args: MrArgs) {
    || (args.taskType == MAP && MapDone(job, s, args.taskName))
    || (args.taskType == REDUCE && ReduceDone(job, s, args.taskId))
  }

  ghost predicate TodoOk(job: Job, r: int, todo: seq<int>, box: seq<KeyValue>) {
    && 0 <= r < job.nReduce
    && AreIds(job.files, todo)
    && multiset(box) + multiset(Share(job, todo, r)) == multiset(Whole(job, r))
  }

  /** A second execution has read the task's records and then its own earlier output. */
  ghost predicate ReadBack(job: Job, r: int, todo: seq<int>, readOut: bool, box: seq<KeyValue>) {
    && 0 <= r < job.nReduce
    && todo == [] && !readOut
    && Whole(job, r) != []
    && exists out :: OutOk(job, r, out) && multiset(box) == multiset(Whole(job, r) + job.parse(out))
  }

  ghost predicate BucketsOk(job: Job, mapId: int, buckets: seq<seq<KeyValue>>) {
    |buckets| == job.nReduce && forall r :: 0 <= r < |buckets| ==> FileOk(job, mapId, r, buckets[r])
  }

  ghost predicate PhaseOk(job: Job, s: Sys, p: Phase) {
    match p
    case Idle => true
    case Assigned(reply) =>
      && (reply.taskType == MAP ==>
            reply.taskName in job.files && reply.mapId == LastIndex(job.files, reply.taskName) && reply.nReduce == job.nReduce)
      && (reply.taskType == REDUCE ==> 0 <= reply.taskId < job.nReduce && s.master.mdone)
    case Mapping(name, mapId, buckets, renamed) =>
      && name in job.files && mapId == LastIndex(job.files, name)
      && (job.nReduce == 0 ==> job.mapf(name) == [])
      && BucketsOk(job, mapId, buckets)
      && renamed <= job.nReduce
      && forall r :: 0 <= r < renamed ==> (mapId, r) in s.inter
    case Reducing(r, todo, readOut, box) =>
      (TodoOk(job, r, todo, box) && (readOut ==> r in s.outs)) || ReadBack(job, r, todo, readOut, box)
    case Reporting(args) => ReportOk(job, s, args)
  }

  ghost predicate MasterOk(job: Job, s: Sys) {
    var m := s.master;
    && |m.rtask| == |m.rstart| == job.nReduce && m.nReduce == job.nReduce
    && m.f2id == Initial(job.files, job.nReduce).f2id
    && (forall f :: f in m.mmap <==> f in job.files)
    && (forall f :: f in m.mmap && m.mmap[f] == FINISHED ==> MapDone(job, s, f))
    && (forall r :: 0 <= r < |m.rtask| && m.rtask[r] == FINISHED ==> ReduceDone(job, s, r))
    && (m.mdone ==> forall f :: f in job.files ==> MapDone(job, s, f))
    && (m.rdone ==> m.mdone && forall r :: 0 <= r < job.nReduce ==> ReduceDone(job, s, r))
  }

  ghost predicate SysInv(job: Job, s: Sys) {
    && StoreOk(job, s.inter)
    && OutsOk(job, s.outs)
    && MasterOk(job, s)
    && (forall w :: w in s.workers ==> PhaseOk(job, s, s.workers[w]))
    && (forall a :: a in s.mail ==> ReportOk(job, s, a))
  }

  // ---- growth -------------------------------------------------------------------------------

  /** Files only appear, and the map stage stays closed. */
  predicate Grows(s: Sys, s': Sys) {
    s.inter.Keys <= s'.inter.Keys && s.outs.Keys <= s'.outs.Keys && (s.master.mdone ==> s'.master.mdone)
  }

  lemma {:induction false} MapGrows(job: Job, s: Sys, s': Sys, name: string)
    requires Grows(s, s') && MapDone(job, s, name)
    ensures MapDone(job, s', name)
  {
  }

  lemma {:induction false} ReduceGrows(job: Job, s: Sys, s': Sys, r: int)
    requires Grows(s, s') && ReduceDone(job, s, r)
    ensures ReduceDone(job, s', r)
  {
    hide Whole;
  }

  lemma {:induction false} ReportGrows(job: Job, s: Sys, s': Sys, args: MrArgs)
    requires Grows(s, s') && ReportOk(job, s, args)
    ensures ReportOk(job, s', args)
  {
    hide MapDone, ReduceDone;
    if args.taskType == MAP {
      MapGrows(job, s, s', args.taskName);
    } else {
      ReduceGrows(job, s, s', args.taskId);
    }
  }

  lemma {:induction false} PhaseGrows(job: Job, s: Sys, s': Sys, p: Phase)
    requires Grows(s, s') && PhaseOk(job, s, p)
    ensures PhaseOk(job, s', p)
  {
    hide TodoOk, BucketsOk, ReportOk, ReadBack;
    if p.Reporting? {
      ReportGrows(job, s, s', p.args);
    }
  }

  lemma {:induction false} MasterGrows(job: Job, s: Sys, s': Sys)
    requires Grows(s, s') && MasterOk(job, s) && s'.master == s.master
    ensures MasterOk(job, s')
  {
    hide MapDone, ReduceDone;
    forall f | MapDone(job, s, f)
      ensures MapDone(job, s', f)
    {
      MapGrows(job, s, s', f);
    }
    forall r | ReduceDone(job, s, r)
      ensures ReduceDone(job, s', r)
    {
      ReduceGrows(job, s, s', r);
    }
  }

  /** A worker moves on; the files and the master may have grown. */
  lemma {:induction false} WorkerMoves(job: Job, s: Sys, s': Sys, w: nat, p: Phase)
    requires SysInv(job, s) && Grows(s, s')
    requires s'.workers == s.workers[w := p] && s'.mail == s.mail
    requires StoreOk(job, s'.inter) && OutsOk(job, s'.outs) && MasterOk(job, s') && PhaseOk(job, s', p)
    ensures SysInv(job, s')
  {
    hide PhaseOk, ReportOk, MasterOk, StoreOk, OutsOk;
    forall v | v in s'.workers
      ensures PhaseOk(job, s', s'.workers[v])
    {
      if v != w {
        PhaseGrows(job, s, s', s.workers[v]);
      }
    }
    forall a | a in s'.mail
      ensures ReportOk(job, s', a)
    {
      ReportGrows(job, s, s', a);
    }
  }

  // ---- asking for a task ------------------------------------------------------------------

  /** What a reply of the master promises. */
  lemma {:induction false} ReplyFacts(m: MasterState, args: MrArgs, now: int, pick: string)
    requires |m.rstart| == |m.rtask|
    ensures var reply := Give(m, args, now, pick).1;
            && (reply.taskType == MAP ==>
                  pick in m.mmap && reply.taskName == pick && reply.nReduce == m.nReduce &&
                  (pick in m.f2id ==> reply.mapId == m.f2id[pick]))
            && (reply.taskType == REDUCE ==> 0 <= reply.taskId < |m.rtask| && m.mdone)
    ensures Give(m, args, now, pick).0.mmap.Keys == m.mmap.Keys
  {
    hide CheckReduces;
    CheckReducesKeys(m.(nextId := m.nextId + 1), now);
    CheckReducesKeys(m, now);
  }

  lemma {:induction false} CheckReducesKeys(m: MasterState, now: int)
    requires |m.rstart| == |m.rtask|
    ensures CheckReduces(m, now).mmap == m.mmap
  {
  }

  /** Handing out, taking back and closing a stage finish nothing. */
  lemma {:induction false} AskKeepsMaster(job: Job, s: Sys, c: Call, s': Sys)
    requires MasterOk(job, s) && c.Asked? && Enabled(s.master, c)
    requires s'.master == After(s.master, c) && s'.inter == s.inter && s'.outs == s.outs
    ensures MasterOk(job, s') && (s.master.mdone ==> s'.master.mdone)
  {
    hide After, MapDone, ReduceDone, Initial, MayPick;
    var m, m' := s.master, s'.master;
    FlagStep(m, c);
    AskedKeys(m, c);
    forall f
      ensures MapDone(job, s', f) == MapDone(job, s, f)
    {
      SameMapDone(job, s, s', f);
    }
    forall r
      ensures ReduceDone(job, s', r) == ReduceDone(job, s, r)
    {
      SameReduceDone(job, s, s', r);
    }
    forall f | f in m'.mmap && m'.mmap[f] == FINISHED
      ensures MapDone(job, s, f)
    {
      TaskStep(m, c, MapTask(f));
    }
    forall r | 0 <= r < |m'.rtask| && m'.rtask[r] == FINISHED
      ensures ReduceDone(job, s, r)
    {
      TaskStep(m, c, ReduceTask(r));
    }
  }

  lemma {:induction false} AskedKeys(m: MasterState, c: Call)
    requires c.Asked? && Shaped(m)
    ensures After(m, c).mmap.Keys == m.mmap.Keys
  {
    ReplyFacts(m, c.args, c.now, c.pick);
  }

  lemma {:induction false} SameMapDone(job: Job, s: Sys, s': Sys, f: string)
    requires s'.inter == s.inter
    ensures MapDone(job, s', f) == MapDone(job, s, f)
  {
  }

  lemma {:induction false} SameReduceDone(job: Job, s: Sys, s': Sys, r: int)
    requires s'.outs == s.outs
    ensures ReduceDone(job, s', r) == ReduceDone(job, s, r)
  {
  }

  /** What a reply promises in terms of the job. */
  lemma {:induction false} ReplyOk(job: Job, s: Sys, args: MrArgs, now: int, pick: string)
    requires MasterOk(job, s)
    ensures Shaped(s.master)
    ensures var reply := Give(s.master, args, now, pick).1;
            && (reply.taskType == MAP ==>
                  reply.taskName in job.files && reply.mapId == LastIndex(job.files, reply.taskName) && reply.nReduce == job.nReduce)
            && (reply.taskType == REDUCE ==> 0 <= reply.taskId < job.nReduce && s.master.mdone)
  {
    hide MapDone, ReduceDone, Give;
    ReplyFacts(s.master, args, now, pick);
  }

  lemma {:induction false} AskKeeps(job: Job, s: Sys, e: Event, s': Sys)
    requires SysInv(job, s) && e.Ask? && Next(job, s, e, s')
    ensures SysInv(job, s')
  {
    hide MasterOk, Give, MayPick, PhaseOk, ReportOk, StoreOk, OutsOk;
    var args := Request(s, e.w);
    var c := Asked(args, e.now, e.pick);
    var reply := Give(s.master, args, e.now, e.pick).1;
    ReplyOk(job, s, args, e.now, e.pick);
    AskKeepsMaster(job, s, c, s');
    AssignedOk(job, s', reply);
    WorkerMoves(job, s, s', e.w, Assigned(reply));
  }

  lemma {:induction false} AssignedOk(job: Job, s: Sys, reply: MrReply)
    requires reply.taskType == MAP ==>
               reply.taskName in job.files && reply.mapId == LastIndex(job.files, reply.taskName) && reply.nReduce == job.nReduce
    requires reply.taskType == REDUCE ==> 0 <= reply.taskId < job.nReduce && s.master.mdone
    ensures PhaseOk(job, s, Assigned(reply))
  {
  }

  // ---- map tasks --------------------------------------------------------------------------

  lemma {:induction false} ShareOfOne(job: Job, name: string, r: int)
    requires name in job.files && 0 <= r < job.nReduce
    ensures var m := LastIndex(job.files, name);
            IsId(job.files, m) && Share(job, [m], r) == Bucket(job.mapf(name), job.hash, job.nReduce, r)
  {
    var m := LastIndex(job.files, name);
    assert Records(job, [m]) == job.mapf(name) + [] == job.mapf(name);
  }

  lemma {:induction false} CallMapKeeps(job: Job, s: Sys, e: Event, s': Sys)
    requires SysInv(job, s) && e.CallMap? && Next(job, s, e, s')
    ensures SysInv(job, s')
  {
    hide MasterOk, StoreOk, OutsOk, ReportOk, FileOk;
    var reply := s.workers[e.w].reply;
    assert PhaseOk(job, s, s.workers[e.w]);
    var name, m := reply.taskName, reply.mapId;
    forall r | 0 <= r < |e.buckets|
      ensures FileOk(job, m, r, e.buckets[r])
    {
      PartitionOk(job, name, e.kva, e.buckets, r);
    }
    MasterGrows(job, s, s');
    assert multiset(e.kva) == multiset(job.mapf(name));
    assert |multiset(e.kva)| == |e.kva| && |multiset(job.mapf(name))| == |job.mapf(name)|;
    WorkerMoves(job, s, s', e.w, Mapping(name, m, e.buckets, 0));
  }

  lemma {:induction false} PartitionOk(job: Job, name: string, kva: seq<KeyValue>, buckets: seq<seq<KeyValue>>, r: int)
    requires name in job.files && multiset(kva) == multiset(job.mapf(name))
    requires Partitioned(job, kva, buckets, job.nReduce) && 0 <= r < job.nReduce
    ensures FileOk(job, LastIndex(job.files, name), r, buckets[r])
  {
    ShareOfOne(job, name, r);
    BucketMultiset(kva, job.mapf(name), job.hash, job.nReduce, r);
  }

  lemma {:induction false} RenameKeeps(job: Job, s: Sys, e: Event, s': Sys)
    requires SysInv(job, s) && e.Rename? && Next(job, s, e, s')
    ensures SysInv(job, s')
  {
    hide MasterOk, OutsOk, ReportOk, FileOk;
    var p := s.workers[e.w];
    assert PhaseOk(job, s, p);
    assert FileOk(job, p.mapId, p.renamed, p.buckets[p.renamed]);
    MasterGrows(job, s, s');
    WorkerMoves(job, s, s', e.w, Mapping(p.name, p.mapId, p.buckets, p.renamed + 1));
  }

  lemma {:induction false} EndMapKeeps(job: Job, s: Sys, e: Event, s': Sys)
    requires SysInv(job, s) && e.EndMap? && Next(job, s, e, s')
    ensures SysInv(job, s')
  {
    hide MasterOk, StoreOk, OutsOk, FileOk, ReduceDone;
    var p := s.workers[e.w];
    assert PhaseOk(job, s, p);
    MasterGrows(job, s, s');
    assert MapDone(job, s', p.name);
    WorkerMoves(job, s, s', e.w, Reporting(MapReport(p.name)));
  }

  // ---- reduce tasks -----------------------------------------------------------------------

  /** Behind a closed map stage the pattern matches one file of every map task. */
  lemma {:induction false} GlobFindsAll(job: Job, s: Sys, r: int, found: seq<int>)
    requires StoreOk(job, s.inter) && 0 <= r < job.nReduce
    requires forall f :: f in job.files ==> MapDone(job, s, f)
    requires Distinct(found) && forall m :: m in found <==> (m, r) in s.inter
    ensures TodoOk(job, r, found, [])
  {
    hide Bucket, Records;
    var ids := Ids(job.files, |job.files|);
    FilesAreIds(job, s, r);
    forall m
      ensures m in found <==> m in ids
    {
      assert m in ids <==> (m, r) in s.inter;
    }
    SameDistinct(found, ids);
    SamePermuted(job, found, ids, r);
  }

  lemma {:induction false} FilesAreIds(job: Job, s: Sys, r: int)
    requires StoreOk(job, s.inter) && 0 <= r < job.nReduce
    requires forall f :: f in job.files ==> MapDone(job, s, f)
    ensures forall m :: m in Ids(job.files, |job.files|) <==> (m, r) in s.inter
  {
    var ids := Ids(job.files, |job.files|);
    forall m
      ensures m in ids <==> (m, r) in s.inter
    {
      if m in ids {
        assert MapDone(job, s, job.files[m]);
      }
      if (m, r) in s.inter {
        assert FileOk(job, m, r, s.inter[(m, r)]);
      }
    }
  }

  lemma {:induction false} SamePermuted(job: Job, a: seq<int>, b: seq<int>, r: int)
    requires multiset(a) == multiset(b) && AreIds(job.files, b) && 0 <= r < job.nReduce
    requires forall m :: m in a ==> m in b
    ensures AreIds(job.files, a) && multiset(Share(job, a, r)) == multiset(Share(job, b, r))
  {
    forall i | 0 <= i < |a|
      ensures IsId(job.files, a[i])
    {
      var m := a[i];
      assert m in a;
      assert m in b;
      var j :| 0 <= j < |b| && b[j] == m;
    }
    RecordsPermute(job, a, b);
    BucketMultiset(Records(job, a), Records(job, b), job.hash, job.nReduce, r);
  }

  lemma {:induction false} GlobKeeps(job: Job, s: Sys, e: Event, s': Sys)
    requires SysInv(job, s) && e.Glob? && Next(job, s, e, s')
    ensures SysInv(job, s')
  {
    hide StoreOk, OutsOk, ReportOk, TodoOk, MapDone, ReduceDone, ReadBack;
    var r := s.workers[e.w].reply.taskId;
    assert PhaseOk(job, s, s.workers[e.w]);
    GlobFindsAll(job, s, r, e.found);
    MasterGrows(job, s, s');
    WorkerMoves(job, s, s', e.w, Reducing(r, e.found, r in s.outs, []));
  }

  lemma {:induction false} RecordsFirst(job: Job, ids: seq<int>)
    requires AreIds(job.files, ids) && ids != []
    ensures AreIds(job.files, [ids[0]]) && AreIds(job.files, ids[1..])
    ensures Records(job, ids) == Records(job, [ids[0]]) + Records(job, ids[1..])
  {
    RecordsConcat(job, [ids[0]], ids[1..]);
    assert [ids[0]] + ids[1..] == ids;
  }

  lemma {:induction false} ReadOne(job: Job, r: int, todo: seq<int>, box: seq<KeyValue>, kvs: seq<KeyValue>)
    requires TodoOk(job, r, todo, box) && todo != [] && FileOk(job, todo[0], r, kvs)
    ensures TodoOk(job, r, todo[1..], box + kvs)
  {
    hide Records, Bucket, IsId;
    RecordsFirst(job, todo);
    BucketAppend(Records(job, [todo[0]]), Records(job, todo[1..]), job.hash, job.nReduce, r);
  }

  lemma {:induction false} ReadFileKeeps(job: Job, s: Sys, e: Event, s': Sys)
    requires SysInv(job, s) && e.ReadFile? && Next(job, s, e, s')
    ensures SysInv(job, s')
  {
    hide OutsOk, ReportOk, TodoOk, MasterOk, FileOk;
    var p := s.workers[e.w];
    assert PhaseOk(job, s, p);
    assert TodoOk(job, p.r, p.todo, p.box);
    hide ReadBack;
    var kvs := s.inter[(p.todo[0], p.r)];
    ReadOne(job, p.r, p.todo, p.box, kvs);
    MasterGrows(job, s, s');
    WorkerMoves(job, s, s', e.w, Reducing(p.r, p.todo[1..], p.readOut, p.box + kvs));
  }

  lemma {:induction false} ReadOutputKeeps(job: Job, s: Sys, e: Event, s': Sys)
    requires SysInv(job, s) && e.ReadOutput? && Next(job, s, e, s')
    ensures SysInv(job, s')
  {
    hide StoreOk, ReportOk, TodoOk, MasterOk, OutOk, Whole;
    var p := s.workers[e.w];
    var box := p.box + job.parse(s.outs[p.r]);
    assert PhaseOk(job, s, p);
    assert TodoOk(job, p.r, p.todo, p.box);
    TodoRange(job, p.r, p.todo, p.box);
    BoxComplete(job, p.r, p.box);
    MasterGrows(job, s, s');
    assert ReadBack(job, p.r, [], false, box);
    WorkerMoves(job, s, s', e.w, Reducing(p.r, [], false, box));
  }

  /** With everything read, the box holds the task's records. */
  lemma {:induction false} BoxComplete(job: Job, r: int, box: seq<KeyValue>)
    requires TodoOk(job, r, [], box)
    ensures 0 <= r < job.nReduce && multiset(box) == multiset(Whole(job, r)) && (box == [] <==> Whole(job, r) == [])
    ensures forall out :: Reduced(job.reducef, box, out) ==> OutOk(job, r, out)
  {
    assert Share(job, [], r) == [];
    assert multiset(box) == multiset(Whole(job, r));
    assert |multiset(box)| == |box| && |multiset(Whole(job, r))| == |Whole(job, r)|;
  }

  /** Reading its own output back does a reduce task no harm: whatever it prints then is
      what it prints from its records alone. */
  ghost predicate HarmlessReread(job: Job) {
    forall r, out, out' :: OutOk(job, r, out) && Rereads(job, r, out, out') ==> OutOk(job, r, out')
  }

  /** What a second execution prints that finds the output `out`; tasks without records
      write no output. */
  ghost predicate Rereads(job: Job, r: int, out: seq<string>, out': seq<string>) {
    0 <= r < job.nReduce && Whole(job, r) != [] && Reduced(job.reducef, Whole(job, r) + job.parse(out), out')
  }

  /** An output that the decoder makes nothing of does no harm. */
  lemma {:induction false} UnreadableIsHarmless(job: Job)
    requires forall r, out :: OutOk(job, r, out) ==> job.parse(out) == []
    ensures HarmlessReread(job)
  {
    forall r, out, out' | OutOk(job, r, out) && Rereads(job, r, out, out')
      ensures OutOk(job, r, out')
    {
      assert Whole(job, r) + [] == Whole(job, r);
    }
  }

  /** A worker that writes has read no output. */
  ghost predicate WritesFirst(job: Job, s: Sys, e: Event) {
    e.WriteOutput? && e.w in s.workers && s.workers[e.w].Reducing? ==>
      TodoOk(job, s.workers[e.w].r, s.workers[e.w].todo, s.workers[e.w].box)
  }

  /** What is written is right. */
  lemma {:induction false} WrittenOk(job: Job, s: Sys, p: Phase, out: seq<string>)
    requires PhaseOk(job, s, p) && p.Reducing? && p.todo == [] && !p.readOut
    requires HarmlessReread(job) || TodoOk(job, p.r, p.todo, p.box)
    requires p.box != [] ==> Reduced(job.reducef, p.box, out)
    ensures 0 <= p.r < job.nReduce
    ensures p.box == [] ==> Whole(job, p.r) == []
    ensures p.box != [] ==> OutOk(job, p.r, out) && Whole(job, p.r) != []
  {
    hide Whole, Reduced, TodoOk, OutOk;
    if TodoOk(job, p.r, p.todo, p.box) {
      TodoRange(job, p.r, p.todo, p.box);
      BoxComplete(job, p.r, p.box);
    } else {
      var o :| OutOk(job, p.r, o) && multiset(p.box) == multiset(Whole(job, p.r) + job.parse(o));
      assert |multiset(p.box)| == |p.box|;
      SameReduced(job.reducef, p.box, Whole(job, p.r) + job.parse(o), out);
      assert Rereads(job, p.r, o, out);
    }
  }

  lemma {:induction false} SameReduced(reducef: Reducer, a: seq<KeyValue>, b: seq<KeyValue>, out: seq<string>)
    requires multiset(a) == multiset(b) && Reduced(reducef, a, out)
    ensures Reduced(reducef, b, out)
  {
  }

  lemma {:induction false} WriteOutputKeeps(job: Job, s: Sys, e: Event, s': Sys)
    requires SysInv(job, s) && e.WriteOutput? && Next(job, s, e, s')
    requires HarmlessReread(job) || WritesFirst(job, s, e)
    ensures SysInv(job, s')
  {
    hide StoreOk, MasterOk, OutOk, Reduced, MapDone, Whole, HarmlessReread, PhaseOk;
    var p := s.workers[e.w];
    assert PhaseOk(job, s, p);
    WrittenOk(job, s, p, e.out);
    MasterGrows(job, s, s');
    assert ReduceDone(job, s', p.r);
    ReportedPhase(job, s', p.r);
    WorkerMoves(job, s, s', e.w, Reporting(ReduceReport(p.r)));
  }

  lemma {:induction false} ReportedPhase(job: Job, s: Sys, r: int)
    requires ReduceDone(job, s, r)
    ensures PhaseOk(job, s, Reporting(ReduceReport(r)))
  {
  }

  lemma {:induction false} TodoRange(job: Job, r: int, todo: seq<int>, box: seq<KeyValue>)
    requires TodoOk(job, r, todo, box)
    ensures 0 <= r < job.nReduce
  {
  }

  // ---- reports ----------------------------------------------------------------------------

  lemma {:induction false} SendKeeps(job: Job, s: Sys, e: Event, s': Sys)
    requires SysInv(job, s) && e.Send? && Next(job, s, e, s')
    ensures SysInv(job, s')
  {
    hide StoreOk, MasterOk, OutsOk, ReportOk;
    var args := s.workers[e.w].args;
    assert PhaseOk(job, s, s.workers[e.w]);
    var s1 := Become(s, e.w, Idle);
    MasterGrows(job, s, s1);
    WorkerMoves(job, s, s1, e.w, Idle);
    ReportGrows(job, s, s1, args);
    MailMoves(job, s1, s', args);
  }

  lemma {:induction false} MailMoves(job: Job, s: Sys, s': Sys, args: MrArgs)
    requires SysInv(job, s) && ReportOk(job, s, args) && s' == s.(mail := s.mail + {args})
    ensures SysInv(job, s')
  {
    hide StoreOk, MasterOk, OutsOk, ReportOk, PhaseOk;
    MasterGrows(job, s, s');
    forall a | a in s'.mail
      ensures ReportOk(job, s', a)
    {
      ReportGrows(job, s, s', a);
    }
    forall w | w in s'.workers
      ensures PhaseOk(job, s', s'.workers[w])
    {
      PhaseGrows(job, s, s', s.workers[w]);
    }
  }

  lemma {:induction false} DeliverMaster(job: Job, s: Sys, args: MrArgs, s': Sys)
    requires MasterOk(job, s) && ReportOk(job, s, args) && s' == s.(master := Finish(s.master, args))
    ensures MasterOk(job, s') && Grows(s, s')
  {
    hide MapDone, ReduceDone, Initial;
    forall f
      ensures MapDone(job, s', f) == MapDone(job, s, f)
    {
      SameMapDone(job, s, s', f);
    }
    forall r
      ensures ReduceDone(job, s', r) == ReduceDone(job, s, r)
    {
      SameReduceDone(job, s, s', r);
    }
    if args.taskType == MAP {
      MapDoneTask(job, s, args.taskName);
    } else {
      ReduceDoneTask(job, s, args.taskId);
    }
  }

  lemma {:induction false} MapDoneTask(job: Job, s: Sys, f: string)
    requires MapDone(job, s, f)
    ensures f in job.files
  {
  }

  lemma {:induction false} ReduceDoneTask(job: Job, s: Sys, r: int)
    requires ReduceDone(job, s, r)
    ensures 0 <= r < job.nReduce
  {
  }

  lemma {:induction false} DeliverKeeps(job: Job, s: Sys, e: Event, s': Sys)
    requires SysInv(job, s) && e.Deliver? && Next(job, s, e, s')
    ensures SysInv(job, s')
  {
    hide StoreOk, MasterOk, OutsOk, ReportOk, PhaseOk, Finish;
    DeliverMaster(job, s, e.args, s');
    forall a | a in s'.mail
      ensures ReportOk(job, s', a)
    {
      ReportGrows(job, s, s', a);
    }
    forall w | w in s'.workers
      ensures PhaseOk(job, s', s'.workers[w])
    {
      PhaseGrows(job, s, s', s.workers[w]);
    }
  }

  // ---- workers that come, go or wait ---------------------------------------------------------

  lemma {:induction false} WaitKeeps(job: Job, s: Sys, e: Event, s': Sys)
    requires SysInv(job, s) && (e.Join? || e.Sleep?) && Next(job, s, e, s')
    ensures SysInv(job, s')
  {
    hide StoreOk, MasterOk, OutsOk, ReportOk;
    MasterGrows(job, s, s');
    WorkerMoves(job, s, s', e.w, Idle);
  }

  lemma {:induction false} CrashKeeps(job: Job, s: Sys, e: Event, s': Sys)
    requires SysInv(job, s) && e.Crash? && Next(job, s, e, s')
    ensures SysInv(job, s')
  {
    hide StoreOk, MasterOk, OutsOk, ReportOk, PhaseOk;
    MasterGrows(job, s, s');
    forall a | a in s'.mail
      ensures ReportOk(job, s', a)
    {
      ReportGrows(job, s, s', a);
    }
    forall w | w in s'.workers
      ensures PhaseOk(job, s', s'.workers[w])
    {
      PhaseGrows(job, s, s', s.workers[w]);
    }
  }

  /** Every step keeps the invariant. */
  lemma {:induction false} NextKeeps(job: Job, s: Sys, e: Event, s': Sys)
    requires SysInv(job, s) && Next(job, s, e, s')
    requires HarmlessReread(job) || WritesFirst(job, s, e)
    ensures SysInv(job, s')
  {
    hide SysInv, Next, HarmlessReread, WritesFirst;
    match e
    case Join(_) => WaitKeeps(job, s, e, s');
    case Crash(_) => CrashKeeps(job, s, e, s');
    case Ask(_, _, _) => AskKeeps(job, s, e, s');
    case Sleep(_) => WaitKeeps(job, s, e, s');
    case CallMap(_, _, _) => CallMapKeeps(job, s, e, s');
    case Rename(_) => RenameKeeps(job, s, e, s');
    case EndMap(_) => EndMapKeeps(job, s, e, s');
    case Glob(_, _) => GlobKeeps(job, s, e, s');
    case ReadFile(_) => ReadFileKeeps(job, s, e, s');
    case ReadOutput(_) => ReadOutputKeeps(job, s, e, s');
    case WriteOutput(_, _) => WriteOutputKeeps(job, s, e, s');
    case Send(_) => SendKeeps(job, s, e, s');
    case Deliver(_) => DeliverKeeps(job, s, e, s');
  }

  lemma {:induction false} SysInvRun(job: Job, states: seq<Sys>, events: seq<Event>, n: nat)
    requires MrSystem.Run(job, states, events) && HarmlessReread(job) && n < |states|
    ensures SysInv(job, states[n])
  {
    hide SysInv, Next, HarmlessReread, Start;
    if n == 0 {
      StartOk(job);
    } else {
      SysInvRun(job, states, events, n - 1);
      NextKeeps(job, states[n - 1], events[n - 1], states[n]);
    }
  }

  lemma {:induction false} StartOk(job: Job)
    ensures SysInv(job, Start(job))
  {
  }

  // ---- the theorem ------------------------------------------------------------------------

  /** When everything is done every reduce task has the output of its records. */
  lemma {:induction false} DoneOutputs(job: Job, s: Sys)
    requires SysInv(job, s) && Done(s)
    ensures job.nReduce > 0 ==>
              BucketsReduced(job.reducef, job.hash, job.nReduce, Everything(job), OutputFiles(job, s))
    ensures job.nReduce == 0 ==> Everything(job) == []
  {
    hide MapDone, StoreOk, PhaseOk, ReportOk;
    forall r | 0 <= r < job.nReduce
      ensures Reduced(job.reducef, Bucket(Everything(job), job.hash, job.nReduce, r), if r in s.outs then s.outs[r] else [])
    {
      assert ReduceDone(job, s, r);
      if r !in s.outs {
        EmptyReduced(job.reducef);
      }
    }
    if job.nReduce == 0 {
      var ids := Ids(job.files, |job.files|);
      assert forall i :: 0 <= i < |ids| ==> ids[i] in ids;
      forall i | 0 <= i < |ids|
        ensures job.mapf(job.files[ids[i]]) == []
      {
        assert ids[i] in ids;
        NoReduceNoRecords(job, s, job.files[ids[i]]);
      }
      NoRecords(job, ids);
    }
  }

  /** Every reduce task has the file that its records call for. */
  ghost predicate FilesRight(job: Job, s: Sys) {
    forall r :: 0 <= r < job.nReduce ==> if r in s.outs then OutOk(job, r, s.outs[r]) else Whole(job, r) == []
  }

  lemma {:induction false} DoneFiles(job: Job, s: Sys)
    requires SysInv(job, s) && Done(s)
    ensures FilesRight(job, s)
  {
    hide MapDone, StoreOk, PhaseOk, ReportOk, OutOk, Whole;
    forall r | 0 <= r < job.nReduce
      ensures if r in s.outs then OutOk(job, r, s.outs[r]) else Whole(job, r) == []
    {
      assert ReduceDone(job, s, r);
    }
  }

  lemma {:induction false} EmptyReduced(reducef: Reducer)
    ensures Reduced(reducef, [], [])
  {
    assert SortedByKey([]) && [] == Output(reducef, []);
  }

  lemma {:induction false} NoReduceNoRecords(job: Job, s: Sys, f: string)
    requires MapDone(job, s, f) && job.nReduce == 0
    ensures job.mapf(f) == []
  {
  }

  lemma {:induction false} NoRecords(job: Job, ids: seq<int>)
    requires AreIds(job.files, ids) && forall i :: 0 <= i < |ids| ==> job.mapf(job.files[ids[i]]) == []
    ensures Records(job, ids) == []
  {
    if ids != [] {
      NoRecords(job, ids[1..]);
    }
  }

  /** Whatever was handed out, repeated, crashed or reported late: once Done answers true
      the lines of all outputs are those of reducing the records of all files at once. */
  lemma {:induction false} RefinementTheorem(job: Job, states: seq<Sys>, events: seq<Event>, n: nat, out: seq<string>)
    requires MrSystem.Run(job, states, events) && n < |states| && Done(states[n])
    requires OrderFree(job.reducef) && HarmlessReread(job)
    requires Reduced(job.reducef, Everything(job), out)
    ensures multiset(AllOutput(job, states[n])) == multiset(out)
  {
    hide SysInv, Next, HarmlessReread, Start, OrderFree, Reduced;
    SysInvRun(job, states, events, n);
    DoneOutputs(job, states[n]);
    if job.nReduce > 0 {
      BucketsTheorem(job.reducef, job.hash, job.nReduce, Everything(job), OutputFiles(job, states[n]), out);
    } else {
      EmptyReduced(job.reducef);
      ReducedUnique(job.reducef, [], out, []);
    }
  }

  /** With distinct file names these are the records of the sequential program. */
  lemma {:induction false} DistinctRecords(job: Job, n: nat)
    requires Distinct(job.files) && n <= |job.files|
    ensures Records(job, Ids(job.files, n)) == AllRecords(job.files[..n], job.mapf)
  {
    hide Records, AllRecords, Ids, LastIndex, Distinct, IsId;
    NoneYet(job);
    if n > 0 {
      var k := n - 1;
      DistinctRecords(job, k);
      DistinctId(job.files, k);
      IdsSnoc(job.files, k);
      RecordsConcat(job, Ids(job.files, k), [k]);
      RecordsOfOne(job, k);
      AllRecordsSnoc(job, n);
    }
  }

  lemma {:induction false} NoneYet(job: Job)
    ensures Records(job, Ids(job.files, 0)) == [] && AllRecords(job.files[..0], job.mapf) == []
  {
    assert job.files[..0] == [];
  }

  lemma {:induction false} IdsSnoc(files: seq<string>, k: nat)
    requires k < |files| && IsId(files, k)
    ensures Ids(files, k + 1) == Ids(files, k) + [k] && AreIds(files, [k]) && AreIds(files, Ids(files, k))
  {
    var ids := Ids(files, k);
    forall i | 0 <= i < |ids|
      ensures IsId(files, ids[i])
    {
      assert ids[i] in ids;
    }
  }

  lemma {:induction false} DistinctId(files: seq<string>, k: nat)
    requires Distinct(files) && k < |files|
    ensures IsId(files, k)
  {
  }

  lemma {:induction false} RecordsOfOne(job: Job, m: int)
    requires IsId(job.files, m)
    ensures Records(job, [m]) == job.mapf(job.files[m])
  {
    assert Records(job, [m]) == job.mapf(job.files[m]) + [];
  }

  lemma {:induction false} AllRecordsSnoc(job: Job, n: nat)
    requires 0 < n <= |job.files|
    ensures AllRecords(job.files[..n], job.mapf) == AllRecords(job.files[..n - 1], job.mapf) + job.mapf(job.files[n - 1])
  {
    assert job.files[..n][..n - 1] == job.files[..n - 1];
  }

  /** A finished job has the output of the sequential program on the same files. */
  lemma {:induction false} RefinesSequential(job: Job, states: seq<Sys>, events: seq<Event>, n: nat, out: seq<string>)
    requires MrSystem.Run(job, states, events) && n < |states| && Done(states[n])
    requires OrderFree(job.reducef) && HarmlessReread(job) && Distinct(job.files)
    requires Reduced(job.reducef, AllRecords(job.files, job.mapf), out)
    ensures multiset(AllOutput(job, states[n])) == multiset(out)
  {
    DistinctRecords(job, |job.files|);
    assert job.files[..|job.files|] == job.files;
    hide MrSystem.Run, HarmlessReread, OrderFree, Reduced;
    RefinementTheorem(job, states, events, n, out);
  }
}
