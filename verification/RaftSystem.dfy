/** A cluster of Raft servers as a transition system.  Each action is one lock
    region of src/raft/raft.go.  Requests and replies may be lost, delayed,
    reordered and, going beyond src/labrpc/labrpc.go, delivered repeatedly; only
    a vote counts once, because each goroutine handles the reply of one call.

    `History` records what happened.  No action reads it. */
module RaftSystem {
  import opened RaftServer

  /** One invocation of RequestVote: its arguments and its vote count. */
  datatype Election = Election(args: VoteArgs, voteNum: nat, counted: set<nat>)

  datatype Answer = Answer(election: nat, voter: nat, reply: VoteReply)
  datatype Request = Request(to: nat, args: AppendArgs)
  datatype Ack = Ack(from: nat, args: AppendArgs, reply: AppendReply)

  /** The first vote of a server in a term: for whom, with which log, on what
      claim, and whether the term still had no leader. */
  datatype Ballot = Ballot(cand: int, voterLog: Log, early: bool, lastTerm: int, lastIndex: int)

  datatype History = History(
    elected: map<int, nat>,              // the leader of each term
    electLog: map<int, Log>,             // its log when it won
    leaderLog: map<int, Log>,            // its log now, or when it stopped leading
    ballots: map<(nat, int), Ballot>,    // first votes, by server and term
    acked: map<(nat, int), nat>)         // how far a server confirmed the log of a term's leader

  datatype System = System(
    servers: seq<Server>,
    elections: seq<Election>,
    answers: set<Answer>,
    requests: set<Request>,
    acks: set<Ack>,
    leads: set<(nat, int)>,              // leaderships seen by the first half of Start
    applied: seq<seq<Command>>,          // what each server sent on its apply channel
    hist: History)

  datatype Action =
    | StartElection(id: nat)
    | AskVotes(id: nat)
    | HandleVote(id: nat, election: nat)
    | HandleAnswer(answer: Answer)
    | SendAppend(id: nat, to: nat)
    | HandleAppend(request: Request)
    | HandleAck(ack: Ack)
    | ReadState(id: nat)
    | AppendCommand(id: nat, term: int, command: Command)
    | ApplyOne(id: nat)
    | Restart(id: nat)

  ghost function Init(n: nat): System {
    System(seq(n, _ => Make(n)), [], {}, {}, {}, {}, seq(n, _ => []), History(map[], map[], map[], map[], map[]))
  }

  // ---- recording ---------------------------------------------------------------------

  ghost function Vote(h: History, voter: nat, term: int, cand: int, log: Log, lastTerm: int, lastIndex: int): History {
    if (voter, term) in h.ballots then h
    else h.(ballots := h.ballots[(voter, term) := Ballot(cand, log, term !in h.elected, lastTerm, lastIndex)])
  }

  ghost function Elect(h: History, term: int, id: nat, log: Log): History {
    if term in h.elected || log == [] then h
    else h.(elected := h.elected[term := id], electLog := h.electLog[term := log],
            leaderLog := h.leaderLog[term := log], acked := h.acked[(id, term) := |log| - 1])
  }

  ghost function Extend(h: History, term: int, id: nat, log: Log): History {
    if log == [] then h
    else h.(leaderLog := h.leaderLog[term := log], acked := h.acked[(id, term) := |log| - 1])
  }

  ghost function Acked(h: History, id: nat, term: int): int {
    if (id, term) in h.acked then h.acked[(id, term)] else 0
  }

  ghost function Confirm(h: History, id: nat, term: int, index: int): History {
    if index < 0 || ((id, term) in h.acked && index <= h.acked[(id, term)]) then h
    else h.(acked := h.acked[(id, term) := index])
  }

  // ---- the actions -----------------------------------------------------------------------

  ghost function DoStartElection(s: System, id: nat): System
    requires id < |s.servers|
  {
    var sv := s.servers[id];
    var sv' := Campaign(sv, id);
    s.(servers := s.servers[id := sv'],
       hist := if sv.role == Leader then s.hist
               else Vote(s.hist, id, sv'.currentTerm, id, sv.log, LastTerm(sv.log), |sv.log| - 1))
  }

  ghost function DoAskVotes(s: System, id: nat): System
    requires id < |s.servers|
  {
    s.(elections := s.elections + [Election(MakeVoteArgs(s.servers[id], id), 1, {})])
  }

  ghost function DoHandleVote(s: System, id: nat, e: nat): System
    requires id < |s.servers| && e < |s.elections|
  {
    var args := s.elections[e].args;
    var (sv', reply) := OnVote(s.servers[id], args);
    s.(servers := s.servers[id := sv'],
       answers := s.answers + {Answer(e, id, reply)},
       hist := if reply.voteGranted
               then Vote(s.hist, id, args.term, args.candidateId, s.servers[id].log, args.lastLogTerm, args.lastLogIndex)
               else s.hist)
  }

  ghost function DoHandleAnswer(n: nat, s: System, a: Answer): System
    requires a.election < |s.elections| && 0 <= s.elections[a.election].args.candidateId < |s.servers|
  {
    var e := s.elections[a.election];
    var id := e.args.candidateId;
    var sv := s.servers[id];
    var (sv', voteNum) := OnVoteReply(sv, e.args, a.reply, e.voteNum, n);
    s.(servers := s.servers[id := sv'],
       elections := s.elections[a.election := Election(e.args, voteNum, if voteNum != e.voteNum then e.counted + {a.voter} else e.counted)],
       hist := if sv.role != Leader && sv'.role == Leader then Elect(s.hist, sv.currentTerm, id, sv.log) else s.hist)
  }

  ghost function DoSendAppend(s: System, id: nat, to: nat): System
    requires id < |s.servers| && MakeAppendArgs(s.servers[id], id, to).Some?
  {
    s.(requests := s.requests + {Request(to, MakeAppendArgs(s.servers[id], id, to).value)})
  }

  ghost function DoHandleAppend(s: System, r: Request): System
    requires r.to < |s.servers| && OnAppend(s.servers[r.to], r.args).Some?
  {
    var (sv', reply) := OnAppend(s.servers[r.to], r.args).value;
    s.(servers := s.servers[r.to := sv'],
       acks := s.acks + {Ack(r.to, r.args, reply)},
       hist := if reply.success && r.args.entries != []
               then Confirm(s.hist, r.to, r.args.term, r.args.prevLogIndex + |r.args.entries|) else s.hist)
  }

  ghost function DoHandleAck(n: nat, s: System, a: Ack): System
    requires 0 <= a.args.leaderId < |s.servers|
    requires OnAppendReply(s.servers[a.args.leaderId], a.args.leaderId, a.from, a.args, a.reply, n).Some?
  {
    var id := a.args.leaderId;
    s.(servers := s.servers[id := OnAppendReply(s.servers[id], id, a.from, a.args, a.reply, n).value])
  }

  ghost function DoReadState(s: System, id: nat): System
    requires id < |s.servers|
  {
    s.(leads := if s.servers[id].role == Leader then s.leads + {(id, s.servers[id].currentTerm)} else s.leads)
  }

  ghost function DoAppendCommand(s: System, id: nat, term: int, command: Command): System
    requires id < |s.servers|
  {
    var sv := s.servers[id];
    var sv' := Append(sv, term, command);
    s.(servers := s.servers[id := sv'],
       hist := if sv.role == Leader && sv.currentTerm == term then Extend(s.hist, term, id, sv'.log) else s.hist)
  }

  ghost function DoApplyOne(s: System, id: nat): System
    requires id < |s.servers| && id < |s.applied| && Apply(s.servers[id]).Some?
  {
    var (sv', msg) := Apply(s.servers[id]).value;
    s.(servers := s.servers[id := sv'],
       applied := if msg.Some? then s.applied[id := s.applied[id] + [msg.value]] else s.applied)
  }

  /** A crash with loss of memory: `persist` writes nothing (raft.go:104-113). */
  ghost function DoRestart(n: nat, s: System, id: nat): System
    requires id < |s.servers| && id < |s.applied|
  {
    s.(servers := s.servers[id := Make(n)], applied := s.applied[id := []])
  }

  ghost predicate Next(n: nat, s: System, a: Action, s': System)
    requires |s.servers| == n && |s.applied| == n
  {
    match a
    case StartElection(id) => id < n && s' == DoStartElection(s, id)
    case AskVotes(id) => id < n && s' == DoAskVotes(s, id)
    case HandleVote(id, e) =>
      id < n && e < |s.elections| && id != s.elections[e].args.candidateId && s' == DoHandleVote(s, id, e)
    case HandleAnswer(ans) =>
      ans in s.answers && ans.election < |s.elections| && ans.voter !in s.elections[ans.election].counted &&
      0 <= s.elections[ans.election].args.candidateId < n && s' == DoHandleAnswer(n, s, ans)
    case SendAppend(id, to) =>
      id < n && to < n && to != id && MakeAppendArgs(s.servers[id], id, to).Some? && s' == DoSendAppend(s, id, to)
    case HandleAppend(r) =>
      r in s.requests && r.to < n && OnAppend(s.servers[r.to], r.args).Some? && s' == DoHandleAppend(s, r)
    case HandleAck(ack) =>
      ack in s.acks && 0 <= ack.args.leaderId < n &&
      OnAppendReply(s.servers[ack.args.leaderId], ack.args.leaderId, ack.from, ack.args, ack.reply, n).Some? &&
      s' == DoHandleAck(n, s, ack)
    case ReadState(id) => id < n && s' == DoReadState(s, id)
    case AppendCommand(id, term, command) => id < n && (id, term) in s.leads && s' == DoAppendCommand(s, id, term, command)
    case ApplyOne(id) => id < n && Apply(s.servers[id]).Some? && s' == DoApplyOne(s, id)
    case Restart(id) => id < n && s' == DoRestart(n, s, id)
  }

  // ---- what the code relies on and does not enforce -------------------------------------------

  /** E1: who sends entries still leads (no check at raft.go:201-220). */
  ghost predicate SenderLeads(s: System, a: Action) {
    a.SendAppend? && a.id < |s.servers| ==> s.servers[a.id].role == Leader
  }

  /** E2: Start appends in the term and leadership it has read (two lock regions
      at raft.go:638-643). */
  ghost predicate StartAtomic(s: System, a: Action) {
    a.AppendCommand? && a.id < |s.servers| ==> s.servers[a.id].role == Leader && s.servers[a.id].currentTerm == a.term
  }

  /** E3: nextIndex has not fallen below 1 (no floor at raft.go:254 and 257). */
  ghost predicate NextPositive(s: System, a: Action) {
    a.SendAppend? && a.id < |s.servers| && a.to < |s.servers[a.id].nextIndex| ==> s.servers[a.id].nextIndex[a.to] >= 1
  }

  /** E4: matchIndex is all zero when a leadership begins (raft.go:497-499 resets
      nextIndex only). */
  ghost predicate MatchFresh(n: nat, s: System, a: Action)
    requires |s.servers| == n
  {
    a.HandleAnswer? && a.answer.election < |s.elections| ==>
      var e := s.elections[a.answer.election];
      0 <= e.args.candidateId < n && s.servers[e.args.candidateId].role != Leader &&
      OnVoteReply(s.servers[e.args.candidateId], e.args, a.answer.reply, e.voteNum, n).0.role == Leader ==>
        s.servers[e.args.candidateId].matchIndex == Fill(n, 0)
  }

  /** E5: nobody restarts with empty memory. */
  ghost predicate NoRestart(a: Action) {
    !a.Restart?
  }

  ghost predicate Relied(n: nat, s: System, a: Action)
    requires |s.servers| == n
  {
    SenderLeads(s, a) && StartAtomic(s, a) && NextPositive(s, a) && MatchFresh(n, s, a) && NoRestart(a)
  }

  // ---- runs --------------------------------------------------------------------------------------

  ghost predicate Sized(n: nat, s: System) {
    |s.servers| == n && |s.applied| == n
  }

  /** Any run of the code. */
  ghost predicate CodeRun(n: nat, states: seq<System>, actions: seq<Action>) {
    && |states| == |actions| + 1
    && states[0] == Init(n)
    && (forall k :: 0 <= k < |states| ==> Sized(n, states[k]))
    && forall k :: 0 <= k < |actions| ==> Next(n, states[k], actions[k], states[k + 1])
  }

  /** A run in which E1 and E5 hold. */
  ghost predicate VoteRun(n: nat, states: seq<System>, actions: seq<Action>) {
    CodeRun(n, states, actions) && forall k :: 0 <= k < |actions| ==> SenderLeads(states[k], actions[k]) && NoRestart(actions[k])
  }

  /** A run in which E1, E2, E3 and E5 hold. */
  ghost predicate LogRun(n: nat, states: seq<System>, actions: seq<Action>) {
    && VoteRun(n, states, actions)
    && forall k :: 0 <= k < |actions| ==> StartAtomic(states[k], actions[k]) && NextPositive(states[k], actions[k])
  }

  /** A run in which E1 to E5 hold. */
  ghost predicate GoodRun(n: nat, states: seq<System>, actions: seq<Action>) {
    CodeRun(n, states, actions) && forall k :: 0 <= k < |actions| ==> Relied(n, states[k], actions[k])
  }
}
