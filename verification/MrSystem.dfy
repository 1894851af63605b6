/** Master, workers and files together: tasks are handed out, executed step by step,
    repeated after a timeout, and reported late, more than once or never. */
module MrSystem {
  import opened Collections
  import opened MrGroups
  import opened MrOutput
  import opened MrBuckets
  import opened MrWorker
  import opened MrMaster

  /** What is fixed during a run. Each call of the map function on a file gives the
      records of mapf in some order. `parse` is what the JSON decoder makes of an output
      file, which the pattern mr-*-r also matches. */
  datatype Job = Job(files: seq<string>, nReduce: nat, mapf: Mapper, reducef: Reducer, hash: Hash,
                     parse: seq<string> -> seq<KeyValue>)

  /** What a worker is doing. */
  datatype Phase =
    | Idle
    | Assigned(reply: MrReply)
    | Mapping(name: string, mapId: int, buckets: seq<seq<KeyValue>>, renamed: nat)
    | Reducing(r: int, todo: seq<int>, readOut: bool, box: seq<KeyValue>)
    | Reporting(args: MrArgs)

  /** `ids` holds the ids that workers were given, `inter` the files mr-m-r, `outs` the
      files mr-out-r, `mail` the reports sent. */
  datatype Sys = Sys(
    master: MasterState,
    workers: map<nat, Phase>,
    ids: map<nat, int>,
    inter: map<(int, int), seq<KeyValue>>,
    outs: map<int, seq<string>>,
    mail: set<MrArgs>)

  datatype Event =
    | Join(w: nat)
    | Crash(w: nat)
    | Ask(w: nat, now: int, pick: string)
    | Sleep(w: nat)
    | CallMap(w: nat, kva: seq<KeyValue>, buckets: seq<seq<KeyValue>>)
    | Rename(w: nat)
    | EndMap(w: nat)
    | Glob(w: nat, found: seq<int>)
    | ReadFile(w: nat)
    | ReadOutput(w: nat)
    | WriteOutput(w: nat, out: seq<string>)
    | Send(w: nat)
    | Deliver(args: MrArgs)

  function Start(job: Job): Sys {
    Sys(Initial(job.files, job.nReduce), map[], map[], map[], map[], {})
  }

  /** What doMap has in its temporary files after partitioning. */
  ghost predicate Partitioned(job: Job, kva: seq<KeyValue>, buckets: seq<seq<KeyValue>>, nReduce: int) {
    && |buckets| == nReduce
    && (nReduce == 0 ==> kva == [])
    && forall r :: 0 <= r < |buckets| ==> buckets[r] == Bucket(kva, job.hash, |buckets|, r)
  }

  function MapReport(name: string): MrArgs {
    MrArgs(MAP, name, 0, 0)
  }

  function ReduceReport(r: int): MrArgs {
    MrArgs(REDUCE, "", 0, r)
  }

  function Become(s: Sys, w: nat, p: Phase): Sys {
    s.(workers := s.workers[w := p])
  }

  ghost predicate InPhase(s: Sys, w: nat, p: Phase) {
    w in s.workers && s.workers[w] == p
  }

  /** A worker has id 0 until it is given one. */
  function IdOf(s: Sys, w: nat): int {
    if w in s.ids then s.ids[w] else 0
  }

  function Request(s: Sys, w: nat): MrArgs {
    MrArgs(0, "", IdOf(s, w), 0)
  }

  /** A worker that asks without an id keeps the one in the reply. */
  function Learn(s: Sys, w: nat, reply: MrReply): Sys {
    if IdOf(s, w) == 0 then s.(ids := s.ids[w := reply.workerId]) else s
  }

  ghost predicate Next(job: Job, s: Sys, e: Event, s': Sys) {
    match e
    case Join(w) =>
      w !in s.workers && s' == Become(s, w, Idle)
    case Crash(w) =>
      s' == s.(workers := s.workers - {w}, ids := s.ids - {w})
    case Ask(w, now, pick) =>
      && InPhase(s, w, Idle) && MayPick(s.master, pick) && |s.master.rstart| == |s.master.rtask|
      && var (master, reply) := Give(s.master, Request(s, w), now, pick);
         s' == Become(Learn(s.(master := master), w, reply), w, Assigned(reply))
    case Sleep(w) =>
      && w in s.workers && s.workers[w].Assigned?
      && !RunsMap(s.workers[w].reply) && s.workers[w].reply.taskType != REDUCE
      && s' == Become(s, w, Idle)
    case CallMap(w, kva, buckets) =>
      && w in s.workers && s.workers[w].Assigned? && RunsMap(s.workers[w].reply)
      && var reply := s.workers[w].reply;
         && multiset(kva) == multiset(job.mapf(reply.taskName))
         && Partitioned(job, kva, buckets, reply.nReduce)
         && s' == Become(s, w, Mapping(reply.taskName, reply.mapId, buckets, 0))
    case Rename(w) =>
      && w in s.workers && s.workers[w].Mapping?
      && var Mapping(name, mapId, buckets, i) := s.workers[w];
         && i < |buckets|
         && s' == Become(s.(inter := s.inter[(mapId, i) := buckets[i]]), w, Mapping(name, mapId, buckets, i + 1))
    case EndMap(w) =>
      && w in s.workers && s.workers[w].Mapping?
      && s.workers[w].renamed == |s.workers[w].buckets|
      && s' == Become(s, w, Reporting(MapReport(s.workers[w].name)))
    case Glob(w, found) =>
      && w in s.workers && s.workers[w].Assigned? && s.workers[w].reply.taskType == REDUCE
      && var r := s.workers[w].reply.taskId;
         && Distinct(found) && (forall m :: m in found <==> (m, r) in s.inter)
         && s' == Become(s, w, Reducing(r, found, r in s.outs, []))
    case ReadFile(w) =>
      && w in s.workers && s.workers[w].Reducing?
      && var Reducing(r, todo, readOut, box) := s.workers[w];
         && todo != [] && (todo[0], r) in s.inter
         && s' == Become(s, w, Reducing(r, todo[1..], readOut, box + s.inter[(todo[0], r)]))
    case ReadOutput(w) =>
      && w in s.workers && s.workers[w].Reducing?
      && var Reducing(r, todo, readOut, box) := s.workers[w];
         && todo == [] && readOut && r in s.outs
         && s' == Become(s, w, Reducing(r, [], false, box + job.parse(s.outs[r])))
    case WriteOutput(w, out) =>
      && w in s.workers && s.workers[w].Reducing?
      && var Reducing(r, todo, readOut, box) := s.workers[w];
         && todo == [] && !readOut
         && (box != [] ==> Reduced(job.reducef, box, out))
         && var s1 := if box == [] then s else s.(outs := s.outs[r := out]);
            s' == Become(s1, w, Reporting(ReduceReport(r)))
    case Send(w) =>
      && w in s.workers && s.workers[w].Reporting?
      && s' == Become(s.(mail := s.mail + {s.workers[w].args}), w, Idle)
    case Deliver(args) =>
      args in s.mail && s' == s.(master := Finish(s.master, args))
  }

  predicate RunsMap(reply: MrReply) {
    reply.taskName != "" && reply.taskType == MAP
  }

  /** states[i + 1] follows states[i] by events[i]. */
  ghost predicate Steps(job: Job, states: seq<Sys>, events: seq<Event>) {
    && |states| == |events| + 1
    && forall i :: 0 <= i < |events| ==> Next(job, states[i], events[i], states[i + 1])
  }

  ghost predicate Run(job: Job, states: seq<Sys>, events: seq<Event>) {
    Steps(job, states, events) && states[0] == Start(job)
  }

  /** The output files in order; a missing file has no lines. */
  function OutputFiles(job: Job, s: Sys): (files: seq<seq<string>>)
    ensures |files| == job.nReduce
    ensures forall r :: 0 <= r < |files| ==> files[r] == if r in s.outs then s.outs[r] else []
  {
    seq(job.nReduce, r => if r in s.outs then s.outs[r] else [])
  }

  function AllOutput(job: Job, s: Sys): seq<string> {
    Flatten(OutputFiles(job, s))
  }

  function Done(s: Sys): bool {
    s.master.mdone && s.master.rdone
  }
}
