/** No run gets stuck: whatever workers crashed, were too slow or left behind, the job can
    still be finished, because the master takes tasks back (src/mr/master.go:92-127). */
module MrProgress {
  import opened Collections
  import opened KeyOrder
  import opened MrGroups
  import opened MrOutput
  import opened MrBuckets
  import opened MrWorker
  import opened MrMaster
  import opened MrScheduler
  import opened MrSystem
  import opened MrRefinement
  import opened MrRuns

  /** Every task can be executed: doMap runs only for a name, and has a bucket for every
      record. */
  predicate Executable(job: Job) {
    forall f :: f in job.files ==> CanMap(job, f)
  }

  // ---- the tables of the master -----------------------------------------------------------

  predicate StatusLive(status: int, start: Time) {
    status == FRESH || status == FINISHED || (status == RUNNING && start.At?)
  }

  predicate MapLive(job: Job, m: MasterState, f: string)
    requires f in m.mmap
  {
    && StatusLive(m.mmap[f], Started(m, MapTask(f)))
    && (m.mmap[f] != FINISHED ==> f in job.files)
  }

  /** A running task has a start time; only files of the job are unfinished. */
  ghost predicate MasterLive(job: Job, m: MasterState) {
    && Shaped(m) && |m.rtask| == job.nReduce && m.nReduce == job.nReduce
    && (forall f :: f in m.mmap ==> MapLive(job, m, f))
    && (forall r :: 0 <= r < |m.rtask| ==> StatusLive(m.rtask[r], m.rstart[r]))
  }

  lemma {:induction false} LiveStart(job: Job)
    ensures MasterLive(job, Start(job).master)
  {
  }

  lemma {:induction false} LiveFinish(job: Job, m: MasterState, args: MrArgs)
    requires MasterLive(job, m)
    ensures MasterLive(job, Finish(m, args))
  {
    if args.taskType == MAP {
      LiveMapReport(job, m, args);
    } else if args.taskType == REDUCE && 0 <= args.taskId < |m.rtask| {
      LiveReduceReport(job, m, args);
    }
  }

  lemma {:induction false} LiveMapReport(job: Job, m: MasterState, args: MrArgs)
    requires MasterLive(job, m) && args.taskType == MAP
    ensures MasterLive(job, Finish(m, args))
  {
    var m' := Finish(m, args);
    forall f | f in m'.mmap
      ensures MapLive(job, m', f)
    {
      assert f in m.mmap ==> MapLive(job, m, f);
    }
  }

  lemma {:induction false} LiveReduceReport(job: Job, m: MasterState, args: MrArgs)
    requires MasterLive(job, m) && args.taskType == REDUCE && 0 <= args.taskId < |m.rtask|
    ensures MasterLive(job, Finish(m, args))
  {
    var m' := Finish(m, args);
    forall f | f in m'.mmap
      ensures MapLive(job, m', f)
    {
      assert MapLive(job, m, f);
    }
  }

  lemma {:induction false} LiveGive(job: Job, m: MasterState, args: MrArgs, now: int, pick: string)
    requires MasterLive(job, m)
    ensures MasterLive(job, Give(m, args, now, pick).0)
  {
    hide CheckMaps, CheckReduces;
    var m1 := Counted(m, args);
    assert MasterLive(job, m1) by {
      LiveCounted(job, m, args);
    }
    LiveChecks(job, m1, now, pick);
    hide MasterLive, FirstFresh;
    if !m.mdone {
      LiveGiveMap(job, m1, Greeting(m, args), now, pick);
    } else if !m.rdone {
      LiveGiveReduce(job, m1, Greeting(m, args), now);
    }
  }

  lemma {:induction false} LiveCounted(job: Job, m: MasterState, args: MrArgs)
    requires MasterLive(job, m)
    ensures MasterLive(job, Counted(m, args))
  {
    var m1 := Counted(m, args);
    forall f | f in m1.mmap
      ensures MapLive(job, m1, f)
    {
      assert MapLive(job, m, f);
    }
  }

  lemma {:induction false} LiveGiveMap(job: Job, m: MasterState, reply: MrReply, now: int, pick: string)
    requires MasterLive(job, m) && MasterLive(job, CheckMaps(m, now, pick))
    ensures MasterLive(job, GiveMap(m, reply, now, pick).0)
  {
    hide CheckMaps;
    if HasStatus(m, pick, FRESH) {
      var m' := GiveMap(m, reply, now, pick).0;
      forall f | f in m'.mmap
        ensures MapLive(job, m', f)
      {
        assert MapLive(job, m, f);
      }
    }
  }

  lemma {:induction false} LiveGiveReduce(job: Job, m: MasterState, reply: MrReply, now: int)
    requires MasterLive(job, m) && MasterLive(job, CheckReduces(m, now))
    ensures MasterLive(job, GiveReduce(m, reply, now).0)
  {
    hide CheckReduces;
    if FirstFresh(m.rtask) < |m.rtask| {
      var m' := GiveReduce(m, reply, now).0;
      forall f | f in m'.mmap
        ensures MapLive(job, m', f)
      {
        assert MapLive(job, m, f);
      }
    }
  }

  lemma {:induction false} LiveChecks(job: Job, m: MasterState, now: int, pick: string)
    requires MasterLive(job, m)
    ensures MasterLive(job, CheckMaps(m, now, pick))
    ensures MasterLive(job, CheckReduces(m, now))
  {
    LiveMapCheck(job, m, now, pick);
    LiveReduceCheck(job, m, now);
  }

  lemma {:induction false} LiveMapCheck(job: Job, m: MasterState, now: int, pick: string)
    requires MasterLive(job, m)
    ensures MasterLive(job, CheckMaps(m, now, pick))
  {
    hide AllMapsFinished, TooOld;
    var m' := CheckMaps(m, now, pick);
    forall f | f in m'.mmap
      ensures MapLive(job, m', f)
    {
      assert MapLive(job, m, f);
    }
  }

  lemma {:induction false} LiveReduceCheck(job: Job, m: MasterState, now: int)
    requires MasterLive(job, m)
    ensures MasterLive(job, CheckReduces(m, now))
  {
    hide FirstUnfinished, TooOld;
    var m' := CheckReduces(m, now);
    assert m'.mmap == m.mmap && m'.mstart == m.mstart;
    forall f | f in m'.mmap
      ensures MapLive(job, m', f)
    {
      assert MapLive(job, m, f);
    }
  }

  lemma {:induction false} LiveNext(job: Job, s: Sys, e: Event, s': Sys)
    requires MasterLive(job, s.master) && Next(job, s, e, s')
    ensures MasterLive(job, s'.master)
  {
    hide MasterLive, Give, Finish, MayPick;
    match e
    case Ask(w, now, pick) => LiveGive(job, s.master, Request(s, w), now, pick);
    case Deliver(args) => LiveFinish(job, s.master, args);
    case _ =>
  }

  lemma {:induction false} LiveReaches(job: Job, s: Sys)
    requires Reaches(job, s)
    ensures MasterLive(job, s.master)
  {
    hide MasterLive, Next;
    var states: seq<Sys>, events: seq<Event> :| Steps(job, states, events) && states[0] == Start(job) && states[|events|] == s;
    LiveStart(job);
    for k := 0 to |events|
      invariant MasterLive(job, states[k].master)
    {
      LiveNext(job, states[k], events[k], states[k + 1]);
    }
  }

  // ---- a single worker takes over ---------------------------------------------------------

  /** Every worker may crash. */
  lemma {:induction false} AllCrash(job: Job, a: Sys, s: Sys) returns (s': Sys)
    requires Leads(job, a, s)
    ensures Leads(job, a, s') && s'.workers == map[] && s'.master == s.master && s'.mail == s.mail
  {
    hide Leads;
    s' := s;
    while s'.workers != map[]
      invariant Leads(job, a, s') && s'.master == s.master && s'.mail == s.mail
      decreases s'.workers.Keys
    {
      var w :| w in s'.workers;
      var s1 := s'.(workers := s'.workers - {w}, ids := s'.ids - {w});
      Extend(job, a, s', Crash(w), s1);
      s' := s1;
    }
  }

  lemma {:induction false} TakesOver(job: Job, a: Sys, s: Sys) returns (s': Sys)
    requires Leads(job, a, s)
    ensures Leads(job, a, s') && Alone(s') && s'.master == s.master
  {
    hide Leads;
    var s1 := AllCrash(job, a, s);
    s' := Become(s1, 1, Idle);
    Extend(job, a, s1, Join(1), s');
  }

  // ---- the map stage ----------------------------------------------------------------------

  ghost predicate MapWork(job: Job, a: Sys, s: Sys) {
    Leads(job, a, s) && Alone(s) && MasterLive(job, s.master) && !s.master.mdone
  }

  /** A fresh map task is handed out. */
  lemma {:induction false} GetsMap(job: Job, a: Sys, s: Sys, f: string) returns (s': Sys, reply: MrReply)
    requires MapWork(job, a, s) && HasStatus(s.master, f, FRESH)
    ensures Leads(job, a, s') && At1(s', Assigned(reply)) && MasterLive(job, s'.master)
    ensures reply.taskType == MAP && reply.taskName == f && reply.nReduce == job.nReduce
    ensures !s'.master.mdone && s'.master.mmap == s.master.mmap[f := RUNNING] && s'.mail == s.mail
  {
    hide Leads, Give, MayPick;
    MapHandOut(s.master, Request(s, 1), 0, f);
    s', reply := Asks(job, a, s, 0, f);
    LiveGive(job, s.master, Request(s, 1), 0, f);
  }

  lemma {:induction false} OneMap(job: Job, a: Sys, s: Sys, f: string) returns (s': Sys)
    requires MapWork(job, a, s) && HasStatus(s.master, f, FRESH) && CanMap(job, f)
    ensures MapWork(job, a, s') && s'.master.mmap == s.master.mmap[f := FINISHED]
  {
    hide Leads, MasterLive;
    var s1, reply := GetsMap(job, a, s, f);
    var s2 := ExecutesMap(job, a, s1, reply);
    s' := ReportsIn(job, a, s2, MapReport(f));
    LiveFinish(job, s2.master, MapReport(f));
  }

  lemma {:induction false} MapTakenBack(m: MasterState, args: MrArgs, now: int, f: string)
    requires Shaped(m) && !m.mdone && HasStatus(m, f, RUNNING) && f in m.mstart && TooOld(m.mstart[f], now)
    requires forall g :: !HasStatus(m, g, FRESH)
    ensures MayPick(m, f)
    ensures var (m', reply) := Give(m, args, now, f);
            !m'.mdone && m'.mmap == m.mmap[f := FRESH] && reply.taskType == 0
  {
  }

  /** With no fresh task left, a running one is taken back. */
  lemma {:induction false} ReturnsMap(job: Job, a: Sys, s: Sys, f: string) returns (s': Sys)
    requires MapWork(job, a, s) && HasStatus(s.master, f, RUNNING) && forall g :: !HasStatus(s.master, g, FRESH)
    ensures MapWork(job, a, s') && s'.master.mmap == s.master.mmap[f := FRESH]
  {
    hide Leads, Give, MayPick;
    assert MapLive(job, s.master, f);
    var now := s.master.mstart[f].ns + PATIENCE + 1;
    MapTakenBack(s.master, Request(s, 1), now, f);
    var s1, reply := Asks(job, a, s, now, f);
    LiveGive(job, s.master, Request(s, 1), now, f);
    s' := Sleeps(job, a, s1, reply);
  }

  ghost function OpenMaps(m: MasterState): set<string> {
    set f | f in m.mmap && m.mmap[f] != FINISHED
  }

  ghost function BusyMaps(m: MasterState): set<string> {
    set f | f in m.mmap && m.mmap[f] == RUNNING
  }

  /** An unfinished task is fresh or running, and belongs to a file. */
  lemma {:induction false} OpenMap(job: Job, m: MasterState, f: string)
    requires MasterLive(job, m) && f in OpenMaps(m) && Executable(job)
    ensures CanMap(job, f) && (HasStatus(m, f, FRESH) || HasStatus(m, f, RUNNING))
  {
    assert MapLive(job, m, f);
  }

  lemma {:induction false} FinishesMaps(job: Job, a: Sys, s: Sys) returns (s': Sys)
    requires MapWork(job, a, s) && Executable(job)
    ensures Leads(job, a, s') && Alone(s') && MasterLive(job, s'.master) && s'.master.mdone
  {
    hide Leads, MasterLive, Give, MayPick, Executable;
    s' := s;
    while OpenMaps(s'.master) != {}
      invariant MapWork(job, a, s')
      decreases OpenMaps(s'.master), BusyMaps(s'.master)
    {
      var m := s'.master;
      if f :| HasStatus(m, f, FRESH) {
        OpenMap(job, m, f);
        s' := OneMap(job, a, s', f);
        assert f in OpenMaps(m) && OpenMaps(s'.master) == OpenMaps(m) - {f};
      } else {
        var f :| f in OpenMaps(m);
        OpenMap(job, m, f);
        s' := ReturnsMap(job, a, s', f);
        assert OpenMaps(s'.master) == OpenMaps(m);
        assert f in BusyMaps(m) && BusyMaps(s'.master) == BusyMaps(m) - {f};
      }
    }
    assert AllMapsFinished(s'.master) by {
      forall f | f in s'.master.mmap ensures s'.master.mmap[f] == FINISHED {
        assert f !in OpenMaps(s'.master);
      }
    }
    s' := ClosesMapStage(job, a, s');
  }

  lemma {:induction false} ClosesMapStage(job: Job, a: Sys, s: Sys) returns (s': Sys)
    requires MapWork(job, a, s) && AllMapsFinished(s.master)
    ensures Leads(job, a, s') && Alone(s') && MasterLive(job, s'.master) && s'.master.mdone
  {
    hide Leads, Give, MayPick;
    MapsClose(s.master, Request(s, 1), 0, "");
    var s1, reply := Asks(job, a, s, 0, "");
    LiveGive(job, s.master, Request(s, 1), 0, "");
    s' := Sleeps(job, a, s1, reply);
  }

  // ---- the reduce stage -------------------------------------------------------------------

  ghost predicate ReduceWork(job: Job, a: Sys, s: Sys) {
    Leads(job, a, s) && Alone(s) && MasterLive(job, s.master) && s.master.mdone && !s.master.rdone
  }

  /** A reduce task is executed up to its report. */
  lemma {:induction false} ExecutesReduce(job: Job, a: Sys, s: Sys, reply: MrReply) returns (s': Sys)
    requires Leads(job, a, s) && At1(s, Assigned(reply)) && reply.taskType == REDUCE
    ensures Leads(job, a, s') && At1(s', Reporting(ReduceReport(reply.taskId))) && s'.master == s.master
  {
    hide Leads, Good;
    var r := reply.taskId;
    var todo := Listing(set p | p in s.inter.Keys && p.1 == r :: p.0);
    var own := r in s.outs;
    s' := Globs(job, a, s, reply, todo);
    var box := [];
    while todo != []
      invariant Leads(job, a, s') && At1(s', Reducing(r, todo, own, box)) && SameFiles(s, s') && s'.master == s.master
      invariant forall i :: 0 <= i < |todo| ==> (todo[i], r) in s.inter
      decreases |todo|
    {
      assert todo[0] in todo;
      assert (todo[0], r) in s'.inter;
      s' := Reads(job, a, s', r, todo, own, box);
      todo, box := todo[1..], box + s.inter[(todo[0], r)];
    }
    s' := WritesSome(job, a, s', r, own, box);
  }

  lemma {:induction false} Globs(job: Job, a: Sys, s: Sys, reply: MrReply, todo: seq<int>) returns (s': Sys)
    requires Leads(job, a, s) && At1(s, Assigned(reply)) && reply.taskType == REDUCE
    requires Distinct(todo) && forall m :: m in todo <==> (m, reply.taskId) in s.inter
    ensures Leads(job, a, s') && SameFiles(s, s') && s'.master == s.master
    ensures At1(s', Reducing(reply.taskId, todo, reply.taskId in s.outs, []))
  {
    hide Leads;
    s' := Become(s, 1, Reducing(reply.taskId, todo, reply.taskId in s.outs, []));
    Extend(job, a, s, Glob(1, todo), s');
  }

  lemma {:induction false} ReadsOwn(job: Job, a: Sys, s: Sys, r: int, readOut: bool, box: seq<KeyValue>)
    returns (s': Sys, all: seq<KeyValue>)
    requires Leads(job, a, s) && At1(s, Reducing(r, [], readOut, box)) && (readOut ==> r in s.outs)
    ensures Leads(job, a, s') && At1(s', Reducing(r, [], false, all)) && s'.master == s.master
  {
    hide Leads;
    s', all := s, box;
    if readOut {
      all := box + job.parse(s.outs[r]);
      s' := Become(s, 1, Reducing(r, [], false, all));
      Extend(job, a, s, ReadOutput(1), s');
    }
  }

  /** What is read last is its own earlier output; then it writes. */
  lemma {:induction false} WritesSome(job: Job, a: Sys, s: Sys, r: int, readOut: bool, box: seq<KeyValue>) returns (s': Sys)
    requires Leads(job, a, s) && At1(s, Reducing(r, [], readOut, box)) && (readOut ==> r in s.outs)
    ensures Leads(job, a, s') && At1(s', Reporting(ReduceReport(r))) && s'.master == s.master
  {
    hide Leads, Reduced;
    var s1, all := ReadsOwn(job, a, s, r, readOut, box);
    var out := SomeOutput(job.reducef, all);
    var s2 := if all == [] then s1 else s1.(outs := s1.outs[r := out]);
    s' := Become(s2, 1, Reporting(ReduceReport(r)));
    assert Next(job, s1, WriteOutput(1, out), s');
    hide Next;
    Extend(job, a, s1, WriteOutput(1, out), s');
  }

  lemma {:induction false} OneReduce(job: Job, a: Sys, s: Sys, k: nat) returns (s': Sys)
    requires ReduceWork(job, a, s) && k < |s.master.rtask| && FirstFresh(s.master.rtask) == k
    ensures ReduceWork(job, a, s') && s'.master.rtask == s.master.rtask[k := FINISHED]
  {
    hide Leads, Give, MayPick, FirstFresh;
    var pick := FreeChoice(s.master);
    ReduceHandOut(s.master, Request(s, 1), 0, pick, k);
    var s1, reply := Asks(job, a, s, 0, pick);
    LiveGive(job, s.master, Request(s, 1), 0, pick);
    var s2 := ExecutesReduce(job, a, s1, reply);
    s' := ReportsIn(job, a, s2, ReduceReport(k));
    LiveFinish(job, s2.master, ReduceReport(k));
  }

  lemma {:induction false} ReduceTakenBack(m: MasterState, args: MrArgs, now: int, pick: string, k: nat)
    requires Shaped(m) && m.mdone && !m.rdone && FirstFresh(m.rtask) == |m.rtask|
    requires k < |m.rtask| && FirstUnfinished(m.rtask) == k && m.rtask[k] == RUNNING && TooOld(m.rstart[k], now)
    ensures var (m', reply) := Give(m, args, now, pick);
            m'.mdone && !m'.rdone && m'.rtask == m.rtask[k := FRESH] && reply.taskType == 0
  {
  }

  /** With no fresh task left, the first unfinished one is taken back. */
  lemma {:induction false} ReturnsReduce(job: Job, a: Sys, s: Sys, k: nat) returns (s': Sys)
    requires ReduceWork(job, a, s) && FirstFresh(s.master.rtask) == |s.master.rtask|
    requires k < |s.master.rtask| && FirstUnfinished(s.master.rtask) == k
    ensures ReduceWork(job, a, s') && s.master.rtask[k] == RUNNING && s'.master.rtask == s.master.rtask[k := FRESH]
  {
    hide Leads, Give, MayPick, FirstFresh, FirstUnfinished;
    assert StatusLive(s.master.rtask[k], s.master.rstart[k]);
    var now := s.master.rstart[k].ns + PATIENCE + 1;
    var pick := FreeChoice(s.master);
    ReduceTakenBack(s.master, Request(s, 1), now, pick, k);
    var s1, reply := Asks(job, a, s, now, pick);
    LiveGive(job, s.master, Request(s, 1), now, pick);
    s' := Sleeps(job, a, s1, reply);
  }

  ghost function OpenReduces(rtask: seq<int>): set<nat> {
    set r: nat | r < |rtask| && rtask[r] != FINISHED
  }

  ghost function BusyReduces(rtask: seq<int>): set<nat> {
    set r: nat | r < |rtask| && rtask[r] == RUNNING
  }

  lemma {:induction false} FinishesReduces(job: Job, a: Sys, s: Sys) returns (s': Sys)
    requires ReduceWork(job, a, s)
    ensures Leads(job, a, s') && Done(s')
  {
    hide Leads, MasterLive, Give, MayPick, FirstFresh, FirstUnfinished;
    s' := s;
    while FirstUnfinished(s'.master.rtask) < |s'.master.rtask|
      invariant ReduceWork(job, a, s')
      decreases OpenReduces(s'.master.rtask), BusyReduces(s'.master.rtask)
    {
      var rtask := s'.master.rtask;
      var k := FirstFresh(rtask);
      if k < |rtask| {
        s' := OneReduce(job, a, s', k);
        assert k in OpenReduces(rtask) && OpenReduces(s'.master.rtask) == OpenReduces(rtask) - {k};
      } else {
        var i := FirstUnfinished(rtask);
        s' := ReturnsReduce(job, a, s', i);
        assert OpenReduces(s'.master.rtask) == OpenReduces(rtask);
        assert i in BusyReduces(rtask) && BusyReduces(s'.master.rtask) == BusyReduces(rtask) - {i};
      }
    }
    var pick := FreeChoice(s'.master);
    LiveShaped(job, s'.master);
    ClosesReduces(s'.master, Request(s', 1), 0, pick);
    var reply;
    s', reply := Asks(job, a, s', 0, pick);
  }

  lemma {:induction false} LiveShaped(job: Job, m: MasterState)
    requires MasterLive(job, m)
    ensures Shaped(m)
  {
  }

  lemma {:induction false} Finishes(job: Job, s: Sys) returns (s': Sys)
    requires MasterLive(job, s.master) && Executable(job)
    ensures Leads(job, s, s') && Done(s')
  {
    hide Leads, MasterLive, Executable;
    Stays(job, s);
    s' := TakesOver(job, s, s);
    if !s'.master.mdone {
      s' := FinishesMaps(job, s, s');
    }
    if !s'.master.rdone {
      s' := FinishesReduces(job, s, s');
    }
  }

  // ---- and when it can never be finished --------------------------------------------------

  /** A map task is finished only when it could be executed. */
  ghost predicate Earned(job: Job, m: MasterState) {
    && Shaped(m) && m.nReduce == job.nReduce
    && (forall f :: f in m.mmap && m.mmap[f] == FINISHED ==> CanMap(job, f))
    && (m.mdone ==> forall f :: f in job.files ==> f in m.mmap && m.mmap[f] == FINISHED)
    && (forall f :: f in job.files ==> f in m.mmap)
  }

  predicate ReportEarned(job: Job, args: MrArgs) {
    args.taskType == MAP ==> CanMap(job, args.taskName)
  }

  predicate PhaseEarned(job: Job, p: Phase) {
    match p
    case Assigned(reply) => reply.taskType == MAP ==> reply.nReduce == job.nReduce
    case Mapping(name, _, _, _) => CanMap(job, name)
    case Reporting(args) => ReportEarned(job, args)
    case _ => true
  }

  ghost predicate AllEarned(job: Job, s: Sys) {
    && Earned(job, s.master)
    && (forall w :: w in s.workers ==> PhaseEarned(job, s.workers[w]))
    && (forall args :: args in s.mail ==> ReportEarned(job, args))
  }

  lemma {:induction false} EarnedAsk(job: Job, m: MasterState, c: Call)
    requires Earned(job, m) && c.Asked? && Enabled(m, c)
    ensures Earned(job, After(m, c))
  {
    hide After, MayPick, HandsOut;
    var m' := After(m, c);
    FlagStep(m, c);
    forall f: string
      ensures Status(m', MapTask(f)) == FINISHED <==> Status(m, MapTask(f)) == FINISHED
    {
      TaskStep(m, c, MapTask(f));
    }
    forall f | f in job.files && m'.mdone
      ensures f in m'.mmap && m'.mmap[f] == FINISHED
    {
      assert Status(m', MapTask(f)) == FINISHED;
    }
    forall f | f in m'.mmap && m'.mmap[f] == FINISHED
      ensures CanMap(job, f)
    {
      assert Status(m', MapTask(f)) == FINISHED;
    }
  }

  lemma {:induction false} EarnedReport(job: Job, m: MasterState, args: MrArgs)
    requires Earned(job, m) && ReportEarned(job, args)
    ensures Earned(job, Finish(m, args))
  {
  }

  lemma {:induction false} EarnedNext(job: Job, s: Sys, e: Event, s': Sys)
    requires AllEarned(job, s) && Next(job, s, e, s')
    ensures AllEarned(job, s')
  {
    hide Earned, Give, Finish, MayPick, Partitioned, Bucket;
    match e
    case Ask(w, now, pick) => EarnedAsking(job, s, e, s');
    case Deliver(args) => EarnedReport(job, s.master, args);
    case CallMap(w, kva, buckets) => EarnedCall(job, s.workers[w].reply, kva, buckets);
    case _ =>
  }

  lemma {:induction false} EarnedAsking(job: Job, s: Sys, e: Event, s': Sys)
    requires AllEarned(job, s) && e.Ask? && Next(job, s, e, s')
    ensures AllEarned(job, s')
  {
    hide Give, MayPick, CanMap;
    var c := Asked(Request(s, e.w), e.now, e.pick);
    ReplyFacts(s.master, c.args, e.now, e.pick);
    EarnedAsk(job, s.master, c);
  }

  lemma {:induction false} EarnedCall(job: Job, reply: MrReply, kva: seq<KeyValue>, buckets: seq<seq<KeyValue>>)
    requires RunsMap(reply) && reply.nReduce == job.nReduce
    requires multiset(kva) == multiset(job.mapf(reply.taskName)) && Partitioned(job, kva, buckets, reply.nReduce)
    ensures CanMap(job, reply.taskName)
  {
    var records := job.mapf(reply.taskName);
    assert |multiset(kva)| == |kva| && |multiset(records)| == |records|;
  }

  lemma {:induction false} EarnedReaches(job: Job, s: Sys)
    requires Reaches(job, s)
    ensures AllEarned(job, s)
  {
    hide AllEarned, Next;
    var states: seq<Sys>, events: seq<Event> :| Steps(job, states, events) && states[0] == Start(job) && states[|events|] == s;
    assert AllEarned(job, Start(job)) by {
      EarnedStart(job);
    }
    for k := 0 to |events|
      invariant AllEarned(job, states[k])
    {
      EarnedNext(job, states[k], events[k], states[k + 1]);
    }
  }

  lemma {:induction false} EarnedStart(job: Job)
    ensures AllEarned(job, Start(job))
  {
  }

  // ---- the theorems -----------------------------------------------------------------------

  /** When every task can be executed, every run can be continued until the job is done;
      otherwise no run gets there. */
  lemma {:induction false} FinishesExactly(job: Job)
    ensures Executable(job) <==> forall s :: Reaches(job, s) ==> exists s' :: Leads(job, s, s') && Done(s')
    ensures Executable(job) <==> exists s :: Reaches(job, s) && Done(s)
  {
    hide Leads, MasterLive, AllEarned;
    forall s | Reaches(job, s) && Executable(job)
      ensures exists s' :: Leads(job, s, s') && Done(s')
    {
      LiveReaches(job, s);
      var s' := Finishes(job, s);
    }
    forall s | Reaches(job, s) && Done(s)
      ensures Executable(job)
    {
      EarnedReaches(job, s);
      DoneEarned(job, s);
    }
    Stays(job, Start(job));
    assert Reaches(job, Start(job));
  }

  lemma {:induction false} DoneEarned(job: Job, s: Sys)
    requires AllEarned(job, s) && Done(s)
    ensures Executable(job)
  {
  }

  /** The worker is the only one and was handed map task f. */
  predicate HasMap(s: Sys, f: string) {
    && s.workers.Keys == {1} && s.workers[1].Assigned?
    && s.workers[1].reply.taskType == MAP && s.workers[1].reply.taskName == f
  }

  lemma {:induction false} HandsOutAgain(job: Job, s: Sys, f: string) returns (s': Sys)
    requires MasterLive(job, s.master) && Executable(job) && !s.master.mdone
    requires f in s.master.mmap && s.master.mmap[f] != FINISHED
    ensures Leads(job, s, s') && HasMap(s', f) && MasterLive(job, s'.master)
  {
    hide Leads, MasterLive, Give, MayPick, Executable;
    Stays(job, s);
    s' := TakesOver(job, s, s);
    OpenMap(job, s'.master, f);
    while !HasStatus(s'.master, f, FRESH)
      invariant MapWork(job, s, s') && f in OpenMaps(s'.master)
      decreases OpenMaps(s'.master), BusyMaps(s'.master)
    {
      var m := s'.master;
      if g :| HasStatus(m, g, FRESH) {
        OpenMap(job, m, g);
        s' := OneMap(job, s, s', g);
        assert g in OpenMaps(m) && OpenMaps(s'.master) == OpenMaps(m) - {g};
      } else {
        OpenMap(job, m, f);
        s' := ReturnsMap(job, s, s', f);
        assert OpenMaps(s'.master) == OpenMaps(m);
        assert f in BusyMaps(m) && BusyMaps(s'.master) == BusyMaps(m) - {f};
      }
    }
    var reply;
    s', reply := GetsMap(job, s, s', f);
  }

  /** Whatever has become of the workers, an unfinished map task can be handed out again. */
  lemma {:induction false} MapRetried(job: Job, s: Sys, f: string) returns (s': Sys)
    requires Reaches(job, s) && Executable(job) && !s.master.mdone
    requires f in s.master.mmap && s.master.mmap[f] != FINISHED
    ensures Leads(job, s, s') && HasMap(s', f)
  {
    hide Leads, MasterLive;
    LiveReaches(job, s);
    s' := HandsOutAgain(job, s, f);
  }

  lemma {:induction false} FirstHandOut(job: Job, f: string) returns (s: Sys)
    requires f in job.files
    ensures Reaches(job, s) && HasMap(s, f) && MasterLive(job, s.master) && s.mail == {}
    ensures !s.master.mdone && HasStatus(s.master, f, RUNNING)
  {
    hide Leads, MasterLive;
    Stays(job, Start(job));
    LiveStart(job);
    var s0 := Become(Start(job), 1, Idle);
    Extend(job, Start(job), Start(job), Join(1), s0);
    var reply;
    s, reply := GetsMap(job, Start(job), s0, f);
  }

  /** For every file there is a run in which the worker that was handed its map task
      crashes, the task is handed out again, and the job is done. */
  lemma {:induction false} CrashedMapIsRetried(job: Job, f: string) returns (s1: Sys, s2: Sys, s3: Sys, s4: Sys)
    requires Executable(job) && f in job.files
    ensures Reaches(job, s1) && HasMap(s1, f)
    ensures Next(job, s1, Crash(1), s2) && s2.workers == map[] && s2.mail == {}
    ensures Leads(job, s2, s3) && HasMap(s3, f)
    ensures Leads(job, s3, s4) && Done(s4)
  {
    hide Leads, MasterLive, Give, MayPick, Executable;
    s1 := FirstHandOut(job, f);
    s2 := s1.(workers := s1.workers - {1}, ids := s1.ids - {1});
    s3 := HandsOutAgain(job, s2, f);
    s4 := Finishes(job, s3);
  }
}
