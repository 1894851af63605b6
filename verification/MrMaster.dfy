/** The master of src/mr/master.go: a table of map tasks by file name, a table of
    reduce tasks by number, two stage flags, and start times for taking back tasks. */
module MrMaster {

  const FRESH := -1
  const RUNNING := 1
  const FINISHED := 2

  const MAP := 1
  const REDUCE := 2

  /** 5*time.Second in nanoseconds. */
  const PATIENCE := 5_000_000_000

  /** time.Time: the zero time, or an instant in nanoseconds. */
  datatype Time = Zero | At(ns: int)

  datatype MrArgs = MrArgs(taskType: int, taskName: string, workerId: int, taskId: int)

  datatype MrReply = MrReply(taskName: string, nReduce: int, workerId: int, taskId: int, taskType: int, mapId: int)

  /** The reply a handler starts from. */
  const BLANK := MrReply("", 0, 0, 0, 0, 0)

  datatype MasterState = MasterState(
    mmap: map<string, int>,
    rtask: seq<int>,
    nReduce: nat,
    nextId: int,
    mdone: bool,
    rdone: bool,
    f2id: map<string, int>,
    mstart: map<string, Time>,
    rstart: seq<Time>)

  // ---- what the handlers compute --------------------------------------------------------

  predicate TooOld(start: Time, now: int) {
    start.At? && now - start.ns > PATIENCE
  }

  /** Position of the last occurrence: later files overwrite f2id. */
  function LastIndex(files: seq<string>, f: string): (i: int)
    requires f in files
    ensures 0 <= i < |files| && files[i] == f && forall j :: i < j < |files| ==> files[j] != f
  {
    if files[|files| - 1] == f then |files| - 1 else LastIndex(files[..|files| - 1], f)
  }

  function Initial(files: seq<string>, nReduce: nat): MasterState {
    MasterState(
      map f | f in files :: FRESH,
      seq(nReduce, i => FRESH),
      nReduce, 1, false, false,
      map f | f in files :: LastIndex(files, f),
      map[],
      seq(nReduce, i => Zero))
  }

  function Finish(s: MasterState, args: MrArgs): MasterState {
    if args.taskType == MAP then s.(mmap := s.mmap[args.taskName := FINISHED])
    else if args.taskType == REDUCE && 0 <= args.taskId < |s.rtask| then
      s.(rtask := s.rtask[args.taskId := FINISHED])
    else s
  }

  predicate HasStatus(s: MasterState, name: string, status: int) {
    name in s.mmap && s.mmap[name] == status
  }

  predicate AllMapsFinished(s: MasterState) {
    forall f :: f in s.mmap ==> s.mmap[f] == FINISHED
  }

  /** The orders in which ranging over mmap can visit the names come down to one name:
      the first fresh one, or if none is fresh the first unfinished one. */
  ghost predicate MayPick(s: MasterState, pick: string) {
    if exists f :: HasStatus(s, f, FRESH) then HasStatus(s, pick, FRESH)
    else AllMapsFinished(s) || (pick in s.mmap && s.mmap[pick] != FINISHED)
  }

  /** First position holding the status, or the length. */
  function FirstFresh(rtask: seq<int>): (i: nat)
    ensures i <= |rtask| && (i < |rtask| ==> rtask[i] == FRESH)
    ensures forall j :: 0 <= j < i ==> rtask[j] != FRESH
  {
    if rtask == [] || rtask[0] == FRESH then 0
    else
      var i := FirstFresh(rtask[1..]);
      assert forall j :: 0 < j < i + 1 ==> rtask[j] == rtask[1..][j - 1];
      i + 1
  }

  function FirstUnfinished(rtask: seq<int>): (i: nat)
    ensures i <= |rtask| && (i < |rtask| ==> rtask[i] != FINISHED)
    ensures forall j :: 0 <= j < i ==> rtask[j] == FINISHED
  {
    if rtask == [] || rtask[0] != FINISHED then 0
    else
      var i := FirstUnfinished(rtask[1..]);
      assert forall j :: 0 < j < i + 1 ==> rtask[j] == rtask[1..][j - 1];
      i + 1
  }

  /** Look at one unfinished map task, or close the map stage. */
  function CheckMaps(s: MasterState, now: int, pick: string): MasterState {
    if AllMapsFinished(s) then s.(mdone := true)
    else if HasStatus(s, pick, RUNNING) && pick in s.mstart && TooOld(s.mstart[pick], now) then
      s.(mmap := s.mmap[pick := FRESH], mstart := s.mstart[pick := Zero])
    else s
  }

  function CheckReduces(s: MasterState, now: int): MasterState
    requires |s.rstart| == |s.rtask|
  {
    var i := FirstUnfinished(s.rtask);
    if i == |s.rtask| then s.(rdone := true)
    else if s.rtask[i] == RUNNING && TooOld(s.rstart[i], now) then
      s.(rtask := s.rtask[i := FRESH], rstart := s.rstart[i := Zero])
    else s
  }

  function GiveMap(s: MasterState, reply: MrReply, now: int, pick: string): (MasterState, MrReply) {
    if HasStatus(s, pick, FRESH) then
      (s.(mmap := s.mmap[pick := RUNNING], mstart := s.mstart[pick := At(now)]),
       reply.(taskName := pick, mapId := if pick in s.f2id then s.f2id[pick] else 0, taskType := MAP, nReduce := s.nReduce))
    else (CheckMaps(s, now, pick), reply)
  }

  function GiveReduce(s: MasterState, reply: MrReply, now: int): (MasterState, MrReply)
    requires |s.rstart| == |s.rtask|
  {
    var i := FirstFresh(s.rtask);
    if i < |s.rtask| then
      (s.(rtask := s.rtask[i := RUNNING], rstart := s.rstart[i := At(now)]),
       reply.(taskId := i, taskType := REDUCE, nReduce := s.nReduce))
    else (CheckReduces(s, now), reply)
  }

  /** GiveTask at time `now`, when ranging over mmap comes to `pick`. */
  function Give(s: MasterState, args: MrArgs, now: int, pick: string): (MasterState, MrReply)
    requires |s.rstart| == |s.rtask|
  {
    var s1 := if args.workerId == 0 then s.(nextId := s.nextId + 1) else s;
    var reply := if args.workerId == 0 then BLANK.(workerId := s.nextId) else BLANK;
    if !s.mdone then GiveMap(s1, reply, now, pick)
    else if !s.rdone then GiveReduce(s1, reply, now)
    else (s1, reply)
  }

  /** The loops of MakeMaster over the file names. */
  method TaskTables(files: seq<string>) returns (tasks: map<string, int>, ids: map<string, int>)
    ensures tasks == map f | f in files :: FRESH
    ensures ids == map f | f in files :: LastIndex(files, f)
  {
    tasks := map[];
    for i := 0 to |files|
      invariant tasks == map f | f in files[..i] :: FRESH
    {
      tasks := tasks[files[i] := FRESH];
      assert files[..i + 1] == files[..i] + [files[i]];
    }
    assert files[..|files|] == files;
    ids := map[];
    for i := 0 to |files|
      invariant ids.Keys == set f | f in files[..i]
      invariant forall f :: f in files[..i] ==> ids[f] == LastIndex(files[..i], f)
    {
      ids := ids[files[i] := i];
      assert files[..i + 1] == files[..i] + [files[i]];
      assert files[..i + 1][..i] == files[..i];
    }
  }

  // ---- the master object ------------------------------------------------------------------

  class Master {
    var mmap: map<string, int>
    var rtask: seq<int>
    var nReduce: nat
    var nextId: int
    var mdone: bool
    var rdone: bool
    var f2id: map<string, int>
    var mstart: map<string, Time>
    var rstart: seq<Time>

    ghost predicate Valid()
      reads this
    {
      |rstart| == |rtask|
    }

    ghost function State(): MasterState
      reads this
    {
      MasterState(mmap, rtask, nReduce, nextId, mdone, rdone, f2id, mstart, rstart)
    }

    /** MakeMaster. */
    constructor (files: seq<string>, nReduce: nat)
      ensures Valid() && State() == Initial(files, nReduce)
    {
      var tasks, ids := TaskTables(files);
      mmap, f2id, mstart := tasks, ids, map[];
      this.nReduce, nextId := nReduce, 1;
      rtask, rstart := seq(nReduce, i => FRESH), seq(nReduce, i => Zero);
      mdone, rdone := false, false;
    }

    /** A task number outside the table makes the handler panic. */
    method TaskFinish(args: MrArgs) returns (panics: bool)
      requires Valid()
      modifies this
      ensures Valid() && State() == Finish(old(State()), args)
      ensures panics <==> args.taskType == REDUCE && !(0 <= args.taskId < |old(rtask)|)
    {
      panics := false;
      if args.taskType == MAP {
        mmap := mmap[args.taskName := FINISHED];
      } else if args.taskType == REDUCE {
        if 0 <= args.taskId < |rtask| {
          rtask := rtask[args.taskId := FINISHED];
        } else {
          panics := true;
        }
      }
    }

    method GiveTask(args: MrArgs, now: int) returns (reply: MrReply, ghost pick: string)
      requires Valid()
      modifies this
      ensures Valid() && MayPick(old(State()), pick)
      ensures (State(), reply) == Give(old(State()), args, now, pick)
    {
      hide CheckMaps, CheckReduces, FirstUnfinished;
      reply := BLANK;
      if args.workerId == 0 {
        reply := reply.(workerId := nextId);
        nextId := nextId + 1;
      }
      var rdo, mdo := false, false;
      if !mdone {
        var rest := mmap.Keys;
        pick := "";
        while rest != {}
          invariant rest <= mmap.Keys && !mdo
          invariant forall f :: f in mmap.Keys - rest ==> mmap[f] != FRESH
          decreases rest
        {
          var i :| i in rest;
          if mmap[i] == FRESH {
            pick := i;
            mstart := mstart[i := At(now)];
            reply := reply.(taskName := i);
            reply := reply.(mapId := if i in f2id then f2id[i] else 0);
            reply := reply.(taskType := MAP);
            reply := reply.(nReduce := nReduce);
            mmap := mmap[i := RUNNING];
            mdo := true;
            break;
          }
          rest := rest - {i};
        }
        if !mdo {
          pick := MIsFinished(now);
        }
      } else if mdone && !rdone {
        pick := FreeChoice(old(State()));
        var i := 0;
        while i < |rtask|
          invariant 0 <= i <= |rtask| && !rdo
          invariant forall j :: 0 <= j < i ==> rtask[j] != FRESH
        {
          if rtask[i] == FRESH {
            rstart := rstart[i := At(now)];
            reply := reply.(taskId := i);
            reply := reply.(taskType := REDUCE);
            reply := reply.(nReduce := nReduce);
            rtask := rtask[i := RUNNING];
            rdo := true;
            break;
          }
          i := i + 1;
        }
        if !rdo {
          RIsFinished(now);
        }
      } else {
        pick := FreeChoice(old(State()));
      }
    }

    method MIsFinished(now: int) returns (ghost pick: string)
      requires Valid() && forall f :: f in mmap ==> mmap[f] != FRESH
      modifies this`mmap, this`mstart, this`mdone
      ensures Valid() && MayPick(old(State()), pick) && State() == CheckMaps(old(State()), now, pick)
    {
      pick := "";
      var rest := mmap.Keys;
      while rest != {}
        invariant rest <= mmap.Keys
        invariant forall f :: f in mmap.Keys - rest ==> mmap[f] == FINISHED
        decreases rest
      {
        var i :| i in rest;
        if mmap[i] != FINISHED {
          pick := i;
          if mmap[i] == RUNNING {
            if i in mstart && mstart[i] != Zero && now - mstart[i].ns > PATIENCE {
              mmap := mmap[i := FRESH];
              mstart := mstart[i := Zero];
            }
          }
          return;
        }
        rest := rest - {i};
      }
      mdone := true;
    }

    method RIsFinished(now: int)
      requires Valid()
      modifies this`rtask, this`rstart, this`rdone
      ensures Valid() && State() == CheckReduces(old(State()), now)
    {
      var i := 0;
      while i < |rtask|
        invariant 0 <= i <= |rtask|
        invariant forall j :: 0 <= j < i ==> rtask[j] == FINISHED
      {
        if rtask[i] != FINISHED {
          if rtask[i] == RUNNING {
            if rstart[i] != Zero && now - rstart[i].ns > PATIENCE {
              rtask := rtask[i := FRESH];
              rstart := rstart[i := Zero];
            }
          }
          return;
        }
        i := i + 1;
      }
      rdone := true;
    }

    method Done() returns (ret: bool)
      ensures ret == (mdone && rdone)
    {
      ret := false;
      if mdone && rdone {
        ret := true;
      }
    }
  }

  /** Some name that ranging over mmap can come to first. */
  ghost function FreeChoice(s: MasterState): (pick: string)
    ensures MayPick(s, pick)
  {
    if f :| HasStatus(s, f, FRESH) then f
    else if AllMapsFinished(s) then ""
    else
      var f :| f in s.mmap && s.mmap[f] != FINISHED;
      f
  }
}
