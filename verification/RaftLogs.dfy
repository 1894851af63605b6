/** Log matching needs E1, E2, E3 and E5 only: an invariant about logs that says nothing
    about commit indices or confirmations (src/raft/raft.go:206-219, 337-362, 632-649). */
module RaftLogs {
  import opened RaftServer
  import opened RaftSystem
  import opened RaftInvariant
  import opened RaftVotes

  // ---- the merge under log matching ----------------------------------------------------------

  /** What an accepted request tells about the logs: they agree up to the entry
      before the ones sent. */
  lemma {:induction false} PrevAgrees(h: History, log: Log, args: AppendArgs)
    requires LogOk(h, log) && PieceOk(h, args) && LogOk(h, h.leaderLog[args.term])
    requires args.prevLogIndex == 0 || (args.prevLogIndex < |log| && log[args.prevLogIndex].term == args.prevLogTerm)
    ensures args.prevLogIndex < |log|
    ensures log[..args.prevLogIndex + 1] == h.leaderLog[args.term][..args.prevLogIndex + 1]
  {
    var leader := h.leaderLog[args.term];
    assert log[0].term == leader[0].term;
    LogMatching(h, log, leader, args.prevLogIndex);
  }

  /** The merged log: the old one, if it holds all that was sent, and else the
      leader's log up to the last entry sent. */
  lemma {:induction false} MergeAgrees(h: History, log: Log, args: AppendArgs)
    requires LogOk(h, log) && PieceOk(h, args) && LogOk(h, h.leaderLog[args.term])
    requires args.prevLogIndex < |log|
    requires log[..args.prevLogIndex + 1] == h.leaderLog[args.term][..args.prevLogIndex + 1]
    ensures var m, leader := args.prevLogIndex + |args.entries|, h.leaderLog[args.term];
            var log' := MergeAt(log, args.prevLogIndex + 1, args.entries);
            || (log' == log && leader[..m + 1] <= log)
            || (log' == leader[..m + 1] && Clash(log, leader, m))
  {
    hide LogOk, MergeAt, Clash;
    AllMatch(h, log, h.leaderLog[args.term]);
    MergeInto(log, h.leaderLog[args.term], args.prevLogIndex + 1, args.entries);
  }

  lemma {:induction false} AllMatch(h: History, log: Log, leader: Log)
    requires LogOk(h, log) && LogOk(h, leader)
    ensures forall j :: 0 <= j < |log| && j < |leader| && log[j].term == leader[j].term ==> log[..j + 1] == leader[..j + 1]
  {
    forall j | 0 <= j < |log| && j < |leader| && log[j].term == leader[j].term
      ensures log[..j + 1] == leader[..j + 1]
    {
      LogMatching(h, log, leader, j);
    }
  }

  /** The same on plain logs in which equal terms mean equal beginnings. */
  lemma {:induction false} MergeInto(log: Log, leader: Log, at: nat, es: Log)
    requires 0 < at <= |log| && at + |es| <= |leader| && es == leader[at..at + |es|]
    requires log[..at] == leader[..at]
    requires forall j :: 0 <= j < |log| && j < |leader| && log[j].term == leader[j].term ==> log[..j + 1] == leader[..j + 1]
    ensures var log', m := MergeAt(log, at, es), at + |es| - 1;
            || (log' == log && leader[..m + 1] <= log)
            || (log' == leader[..m + 1] && Clash(log, leader, m))
  {
    hide MergeAt, Common, Clash;
    MergeForm(log, at, es);
    var k, end := Common(log, at, es), at + |es|;
    AgreesFor(log, leader, at, es, k);
    if k < |es| {
      assert es[k..] == leader[at + k..end];
      assert leader[..at + k] + leader[at + k..end] == leader[..end];
      if at + k < |log| {
        assert log[at + k].term != es[k].term && es[k] == leader[at + k];
      }
      ClashAt(log, leader, at + k, end - 1);
    }
  }

  lemma {:induction false} ClashAt(log: Log, leader: Log, i: nat, m: int)
    requires i <= m < |leader| && (i < |log| ==> log[i] != leader[i])
    ensures Clash(log, leader, m)
  {
  }

  /** Where terms agree with the entries sent, the logs agree. */
  lemma {:induction false} AgreesFor(log: Log, leader: Log, at: nat, es: Log, k: nat)
    requires 0 < at <= |log| && at + |es| <= |leader| && es == leader[at..at + |es|] && k <= |es| && at + k <= |log|
    requires log[..at] == leader[..at]
    requires forall j :: 0 <= j < |log| && j < |leader| && log[j].term == leader[j].term ==> log[..j + 1] == leader[..j + 1]
    requires forall j :: 0 <= j < k ==> log[at + j].term == es[j].term
    ensures log[..at + k] == leader[..at + k]
  {
    if k > 0 {
      var i := k - 1;
      assert es[i] == leader[at + i];
      assert log[at + i].term == es[i].term;
    }
  }

  /** Within the first m entries one log ends or the two differ. */
  ghost predicate Clash(log: Log, leader: Log, m: int) {
    m < |leader| && (|log| <= m || exists j :: 0 <= j <= m && j < |log| && log[j] != leader[j])
  }

  // ---- the invariant ----------------------------------------------------------------------------

  ghost predicate LogHolderOk(h: History, sv: Server) {
    && LogOk(h, sv.log)
    && (sv.role == Leader ==> sv.currentTerm in h.leaderLog && sv.log == h.leaderLog[sv.currentTerm])
  }

  ghost predicate LogsInv(n: nat, s: System) {
    && |s.servers| == n
    && s.hist.elected.Keys == s.hist.leaderLog.Keys
    && (forall t :: t in s.hist.leaderLog ==> LogOk(s.hist, s.hist.leaderLog[t]))
    && (forall id: nat :: id < n ==> LogHolderOk(s.hist, s.servers[id]))
    && (forall r :: r in s.requests ==> PieceOk(s.hist, r.args))
  }

  lemma {:induction false} PieceKept(h: History, h': History, args: AppendArgs)
    requires PieceOk(h, args) && LogsGrow(h, h') && Leads(h', args.leaderId, args.term)
    ensures PieceOk(h', args)
  {
    var log, log' := h.leaderLog[args.term], h'.leaderLog[args.term];
    assert log' == log + log'[|log|..];
  }

  /** A step in which no leader's log changes. */
  lemma {:induction false} QuietLogs(n: nat, s: System, s': System)
    requires LogsInv(n, s) && |s'.servers| == n
    requires s'.hist.elected == s.hist.elected && s'.hist.leaderLog == s.hist.leaderLog
    requires forall id :: 0 <= id < n ==> LogOk(s.hist, s'.servers[id].log)
    requires forall id :: 0 <= id < n && s'.servers[id].role == Leader ==>
               s.servers[id].role == Leader && s'.servers[id].currentTerm == s.servers[id].currentTerm && s'.servers[id].log == s.servers[id].log
    requires forall r :: r in s'.requests && r !in s.requests ==> PieceOk(s.hist, r.args)
    ensures LogsInv(n, s')
  {
    hide LogOk, PieceOk;
    var h, h' := s.hist, s'.hist;
    assert LogsGrow(h, h');
    forall t | t in h'.leaderLog
      ensures LogOk(h', h'.leaderLog[t])
    {
      LogOkKept(h, h', h.leaderLog[t]);
    }
    forall id: nat | id < n
      ensures LogHolderOk(h', s'.servers[id])
    {
      LogOkKept(h, h', s'.servers[id].log);
      assert LogHolderOk(h, s.servers[id]);
    }
    forall r | r in s'.requests
      ensures PieceOk(h', r.args)
    {
      assert PieceOk(h, r.args);
      PieceLeads(h, r.args);
      PieceKept(h, h', r.args);
    }
  }

  lemma {:induction false} PieceLeads(h: History, args: AppendArgs)
    requires PieceOk(h, args)
    ensures Leads(h, args.leaderId, args.term)
  {
  }

  // ---- the actions ------------------------------------------------------------------------------

  /** The log after a request. */
  lemma {:induction false} AppendLog(sv: Server, args: AppendArgs)
    requires OnAppend(sv, args).Some?
    ensures var sv' := OnAppend(sv, args).value.0;
            || sv' == sv
            || (sv'.role == Follower && sv'.log == sv.log)
            || (sv'.role == Follower && 0 <= args.prevLogIndex && sv'.log == MergeAt(sv.log, args.prevLogIndex + 1, args.entries) &&
                (args.prevLogIndex == 0 || (args.prevLogIndex < |sv.log| && sv.log[args.prevLogIndex].term == args.prevLogTerm)))
  {
    hide MergeAt;
  }

  lemma {:induction false} MergedLogOk(h: History, log: Log, args: AppendArgs)
    requires LogOk(h, log) && PieceOk(h, args) && LogOk(h, h.leaderLog[args.term])
    requires args.prevLogIndex == 0 || (args.prevLogIndex < |log| && log[args.prevLogIndex].term == args.prevLogTerm)
    ensures LogOk(h, MergeAt(log, args.prevLogIndex + 1, args.entries))
  {
    PrevAgrees(h, log, args);
    hide LogOk, MergeAt, Clash;
    MergeAgrees(h, log, args);
    LogPrefixOk(h, h.leaderLog[args.term], args.prevLogIndex + |args.entries| + 1);
  }

  lemma {:induction false} HandleAppendLogs(n: nat, s: System, r: Request)
    requires LogsInv(n, s) && r in s.requests && r.to < n && OnAppend(s.servers[r.to], r.args).Some?
    ensures LogsInv(n, DoHandleAppend(s, r))
  {
    hide LogOk, PieceOk, OnAppend, MergeAt;
    var sv, s' := s.servers[r.to], DoHandleAppend(s, r);
    assert LogHolderOk(s.hist, sv) && PieceOk(s.hist, r.args);
    PieceLeads(s.hist, r.args);
    AppendLog(sv, r.args);
    if s'.servers[r.to].log != sv.log {
      MergedLogOk(s.hist, sv.log, r.args);
    }
    forall id | 0 <= id < n
      ensures LogOk(s.hist, s'.servers[id].log)
    {
      assert LogHolderOk(s.hist, s.servers[id]);
    }
    QuietLogs(n, s, s');
  }

  /** A leader sends a piece of its log. */
  lemma {:induction false} SendPiece(h: History, id: nat, to: nat, sv: Server)
    requires LogHolderOk(h, sv) && sv.role == Leader && Leads(h, id, sv.currentTerm)
    requires MakeAppendArgs(sv, id, to).Some? && to < |sv.nextIndex| && sv.nextIndex[to] >= 1
    ensures PieceOk(h, MakeAppendArgs(sv, id, to).value)
  {
    hide LogOk;
    var args := MakeAppendArgs(sv, id, to).value;
    assert sv.log != [] by { NotEmpty(h, sv.log); }
    assert args.entries == sv.log[args.prevLogIndex + 1..];
    assert sv.log[args.prevLogIndex + 1..] == sv.log[args.prevLogIndex + 1..args.prevLogIndex + 1 + |args.entries|];
  }

  lemma {:induction false} SendAppendLogs(n: nat, s: System, id: nat, to: nat)
    requires LogsInv(n, s) && VotesInv(n, s) && id < n && MakeAppendArgs(s.servers[id], id, to).Some?
    requires s.servers[id].role == Leader && to < |s.servers[id].nextIndex| && s.servers[id].nextIndex[to] >= 1
    ensures LogsInv(n, DoSendAppend(s, id, to))
  {
    hide LogOk, PieceOk, MakeAppendArgs;
    assert LogHolderOk(s.hist, s.servers[id]) && VoterOk(s.hist, id, s.servers[id]);
    SendPiece(s.hist, id, to, s.servers[id]);
    SameServers(n, s, DoSendAppend(s, id, to));
  }

  lemma {:induction false} SameServers(n: nat, s: System, s': System)
    requires LogsInv(n, s) && s'.servers == s.servers
    requires s'.hist.elected == s.hist.elected && s'.hist.leaderLog == s.hist.leaderLog
    requires forall r :: r in s'.requests && r !in s.requests ==> PieceOk(s.hist, r.args)
    ensures LogsInv(n, s')
  {
    hide LogOk, PieceOk;
    forall id | 0 <= id < n
      ensures LogOk(s.hist, s'.servers[id].log)
    {
      assert LogHolderOk(s.hist, s.servers[id]);
    }
    QuietLogs(n, s, s');
  }

  /** A leader is added, or the log of one is extended; nobody else leads its term. */
  lemma {:induction false} LogsGrowStep(n: nat, s: System, s': System, x: nat, term: int)
    requires LogsInv(n, s) && x < n && |s'.servers| == n && s'.requests == s.requests
    requires forall j :: 0 <= j < n && j != x ==> s'.servers[j] == s.servers[j]
    requires forall j :: 0 <= j < n && j != x && s.servers[j].role == Leader ==> s.servers[j].currentTerm != term
    requires LogsGrow(s.hist, s'.hist) && s'.hist.leaderLog.Keys == s.hist.leaderLog.Keys + {term} == s'.hist.elected.Keys
    requires forall t :: t in s.hist.elected ==> t in s'.hist.elected && s'.hist.elected[t] == s.hist.elected[t]
    requires forall t :: t in s.hist.leaderLog && t != term ==> s'.hist.leaderLog[t] == s.hist.leaderLog[t]
    requires LogOk(s'.hist, s'.hist.leaderLog[term]) && LogHolderOk(s'.hist, s'.servers[x])
    ensures LogsInv(n, s')
  {
    hide LogOk, PieceOk;
    var h, h' := s.hist, s'.hist;
    forall t | t in h'.leaderLog
      ensures LogOk(h', h'.leaderLog[t])
    {
      if t != term {
        LogOkKept(h, h', h.leaderLog[t]);
      }
    }
    forall id: nat | id < n
      ensures LogHolderOk(h', s'.servers[id])
    {
      if id != x {
        assert LogHolderOk(h, s.servers[id]);
        LogOkKept(h, h', s.servers[id].log);
      }
    }
    forall r | r in s'.requests
      ensures PieceOk(h', r.args)
    {
      assert PieceOk(h, r.args);
      PieceLeads(h, r.args);
      PieceKept(h, h', r.args);
    }
  }

  lemma {:induction false} HandleAnswerLogs(n: nat, s: System, a: Answer)
    requires LogsInv(n, s) && VotesInv(n, s) && a in s.answers && a.election < |s.elections|
    requires a.voter !in s.elections[a.election].counted && 0 <= s.elections[a.election].args.candidateId < n
    ensures LogsInv(n, DoHandleAnswer(n, s, a))
  {
    var e, s' := s.elections[a.election], DoHandleAnswer(n, s, a);
    var id := e.args.candidateId;
    var sv := s.servers[id];
    assert LogHolderOk(s.hist, sv) && VoterOk(s.hist, id, sv) && CountOk(n, s.hist, e) && AnswerOk(n, s, a);
    hide LogOk, PieceOk, VoterOk, CountOk, RecordOk;
    if sv.role != Leader && s'.servers[id].role == Leader {
      assert sv.role == Candidate;
      WinsOnce(n, s.hist, id, sv, e, a.voter);
      NotEmpty(s.hist, sv.log);
      LogOkKept(s.hist, s'.hist, sv.log);
      NoRival(n, s, id, sv.currentTerm);
      LogsGrowStep(n, s, s', id, sv.currentTerm);
    } else {
      forall j | 0 <= j < n
        ensures LogOk(s.hist, s'.servers[j].log)
      {
        assert LogHolderOk(s.hist, s.servers[j]);
      }
      QuietLogs(n, s, s');
    }
  }

  /** A term that is free, or led by id, is led by nobody else. */
  lemma {:induction false} NoRival(n: nat, s: System, id: nat, term: int)
    requires VotesInv(n, s) && (term !in s.hist.elected || s.hist.elected[term] == id)
    ensures forall j :: 0 <= j < n && j != id && s.servers[j].role == Leader ==> s.servers[j].currentTerm != term
  {
    forall j | 0 <= j < n && j != id && s.servers[j].role == Leader
      ensures s.servers[j].currentTerm != term
    {
      assert VoterOk(s.hist, j, s.servers[j]);
    }
  }

  lemma {:induction false} AppendCommandLogs(n: nat, s: System, id: nat, term: int, command: Command)
    requires LogsInv(n, s) && VotesInv(n, s) && id < n
    requires s.servers[id].role == Leader && s.servers[id].currentTerm == term
    ensures LogsInv(n, DoAppendCommand(s, id, term, command))
  {
    var sv, s' := s.servers[id], DoAppendCommand(s, id, term, command);
    assert LogHolderOk(s.hist, sv) && VoterOk(s.hist, id, sv);
    LongerLogOk(s.hist, s'.hist, sv.log, LogEntry(command, term));
    hide LogOk, PieceOk, VoterOk;
    NoRival(n, s, id, term);
    LogsGrowStep(n, s, s', id, term);
  }

  lemma {:induction false} LongerLogOk(h: History, h': History, log: Log, entry: LogEntry)
    requires LogOk(h, log) && entry.term in h'.leaderLog && h'.leaderLog[entry.term] == log + [entry]
    requires LogsGrow(h, h')
    ensures LogOk(h', log + [entry])
  {
    LogOkKept(h, h', log);
    var log' := log + [entry];
    forall i | 0 < i < |log'|
      ensures EntryOk(h', log', i)
    {
      if i < |log| {
        assert EntryOk(h', log, i);
        assert log'[..i + 1] == log[..i + 1];
      }
    }
  }

  /** The actions that touch no log. */
  lemma {:induction false} OtherLogs(n: nat, s: System, a: Action, s': System)
    requires Sized(n, s) && LogsInv(n, s) && Next(n, s, a, s')
    requires a.StartElection? || a.AskVotes? || a.HandleVote? || a.HandleAck? || a.ReadState? || a.ApplyOne?
    ensures LogsInv(n, s')
  {
    hide LogOk, PieceOk, OnVote, OnAppendReply;
    forall id | 0 <= id < n
      ensures LogOk(s.hist, s.servers[id].log)
    {
      assert LogHolderOk(s.hist, s.servers[id]);
    }
    if a.HandleVote? {
      VoteLog(s.servers[a.id], s.elections[a.election].args);
    } else if a.HandleAck? {
      AckLog(s.servers[a.ack.args.leaderId], a.ack.args.leaderId, a.ack.from, a.ack.args, a.ack.reply, n);
    }
    QuietLogs(n, s, s');
  }

  lemma {:induction false} VoteLog(sv: Server, args: VoteArgs)
    ensures var sv' := OnVote(sv, args).0;
            sv'.log == sv.log && (sv'.role == Leader ==> sv.role == Leader && sv'.currentTerm == sv.currentTerm)
  {
  }

  lemma {:induction false} AckLog(sv: Server, me: nat, from: nat, args: AppendArgs, reply: AppendReply, n: nat)
    requires OnAppendReply(sv, me, from, args, reply, n).Some?
    ensures var sv' := OnAppendReply(sv, me, from, args, reply, n).value;
            sv'.log == sv.log && (sv'.role == Leader ==> sv.role == Leader && sv'.currentTerm == sv.currentTerm)
  {
    hide Holders;
  }

  /** Every step that keeps E1, E2, E3 and E5 keeps the invariant. */
  lemma {:induction false} NextKeepsLogs(n: nat, s: System, a: Action, s': System)
    requires Sized(n, s) && LogsInv(n, s) && VotesInv(n, s) && Next(n, s, a, s')
    requires SenderLeads(s, a) && StartAtomic(s, a) && NextPositive(s, a) && NoRestart(a)
    ensures LogsInv(n, s')
  {
    hide LogsInv, VotesInv, MakeAppendArgs;
    match a
    case HandleAnswer(ans) => HandleAnswerLogs(n, s, ans);
    case SendAppend(id, to) =>
      SendRange(s.servers[id], id, to);
      SendAppendLogs(n, s, id, to);
    case HandleAppend(r) => HandleAppendLogs(n, s, r);
    case AppendCommand(id, term, command) => AppendCommandLogs(n, s, id, term, command);
    case Restart(id) =>
    case _ => OtherLogs(n, s, a, s');
  }

  lemma {:induction false} SendRange(sv: Server, id: nat, to: nat)
    requires MakeAppendArgs(sv, id, to).Some?
    ensures to < |sv.nextIndex|
  {
  }
}
