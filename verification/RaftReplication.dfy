/** The replication steps keep the invariant (raft.go:181-388, 632-649, 768-792). */
module RaftReplication {
  import opened Collections
  import opened RaftServer
  import opened RaftSystem
  import opened RaftInvariant
  import opened RaftFrame
  import opened RaftElections
  import opened RaftLogs

  // ---- sending entries ---------------------------------------------------------------

  /** A leader always sends its whole suffix, so the commit index it sends never
      exceeds the index of the last entry sent. */
  lemma {:induction false} SendOk(n: nat, h: History, id: nat, to: nat, sv: Server)
    requires HistOk(n, h) && ServerOk(n, h, id, sv) && id < n && to < n
    requires sv.role == Leader && sv.nextIndex[to] >= 1 && MakeAppendArgs(sv, id, to).Some?
    ensures AppendOk(n, h, MakeAppendArgs(sv, id, to).value)
    ensures var args := MakeAppendArgs(sv, id, to).value;
            args.prevLogIndex + |args.entries| == |sv.log| - 1
  {
    hide HistOk, ServerOk, CommitOk;
    LeaderFacts(n, h, id, sv);
    var args := MakeAppendArgs(sv, id, to).value;
    assert args.entries == sv.log[args.prevLogIndex + 1..];
    assert sv.log[args.prevLogIndex + 1..] == sv.log[args.prevLogIndex + 1..args.prevLogIndex + 1 + |args.entries|];
  }

  lemma {:induction false} LeaderFacts(n: nat, h: History, id: nat, sv: Server)
    requires HistOk(n, h) && ServerOk(n, h, id, sv) && sv.role == Leader && id < n
    ensures |sv.nextIndex| == n && |sv.matchIndex| == n && forall j :: 0 <= j < n ==> sv.nextIndex[j] <= |sv.log|
    ensures Leads(h, id, sv.currentTerm) && sv.currentTerm in h.leaderLog && sv.log == h.leaderLog[sv.currentTerm]
    ensures CommitOk(n, h, sv.commitIndex, sv.log, sv.currentTerm) && 0 <= sv.commitIndex < |sv.log|
  {
  }

  lemma {:induction false} SendAppendKeeps(n: nat, s: System, id: nat, to: nat)
    requires Inv(n, s) && id < n && to < n && to != id && MakeAppendArgs(s.servers[id], id, to).Some?
    requires SenderLeads(s, SendAppend(id, to)) && NextPositive(s, SendAppend(id, to))
    ensures Inv(n, DoSendAppend(s, id, to))
  {
    hide HistOk, Grows, OnlyBy, ServerOk, AckOk, AppliedOk, ElectionOk, BallotClaim, AppendOk, MakeAppendArgs, AnswerOk;
    var s', sv := DoSendAppend(s, id, to), s.servers[id];
    assert ServerOk(n, s.hist, id, sv) && AppliedOk(n, s.hist, sv, s.applied[id]);
    Basics(n, s.hist, id, sv);
    SendOk(n, s.hist, id, to, sv);
    GrowsSame(s.hist);
    AppendFrom(sv, id, to);
    assert RequestOk(n, s'.hist, Request(to, MakeAppendArgs(sv, id, to).value));
    assert StepBy(n, s, s', id);
    StepKeepsInv(n, s, s', id);
  }

  lemma {:induction false} AppendFrom(sv: Server, id: nat, to: nat)
    requires MakeAppendArgs(sv, id, to).Some?
    ensures MakeAppendArgs(sv, id, to).value.leaderId == id
  {
  }

  // ---- receiving entries ----------------------------------------------------------------

  /** Accepting the term and leader of a request. */
  lemma {:induction false} FollowOk(n: nat, h: History, id: nat, sv: Server, args: AppendArgs)
    requires HistOk(n, h) && ServerOk(n, h, id, sv) && Leads(h, args.leaderId, args.term) && args.leaderId != id
    requires args.term >= sv.currentTerm && args.leaderId >= 0
    ensures ServerOk(n, h, id, Follow(sv, args)) && ClaimsKept(sv, Follow(sv, args))
  {
    var sv' := Follow(sv, args);
    if args.term > sv.currentTerm {
      NewTermOk(n, h, id, sv, sv');
    }
  }

  /** What an accepted request tells about the logs: they agree up to the entry
      before the ones sent. */
  lemma {:induction false} PrevMatches(n: nat, h: History, log: Log, args: AppendArgs)
    requires HistOk(n, h) && LogOk(h, log) && AppendOk(n, h, args)
    requires args.prevLogIndex == 0 || (args.prevLogIndex < |log| && log[args.prevLogIndex].term == args.prevLogTerm)
    ensures args.prevLogIndex < |log|
    ensures log[..args.prevLogIndex + 1] == h.leaderLog[args.term][..args.prevLogIndex + 1]
  {
    LeaderLogOk(n, h, args.term);
    hide HistOk, LogOk, CommitOk;
    PrevAgrees(h, log, args);
  }

  /** Heartbeats: only the matched prefix is marked committed. */
  lemma {:induction false} HeartbeatOk(n: nat, h: History, id: nat, sv: Server, args: AppendArgs)
    requires HistOk(n, h) && ServerOk(n, h, id, sv) && AppendOk(n, h, args) && args.leaderId != id
    requires args.term >= sv.currentTerm && args.entries == [] && OnAppend(sv, args).Some?
    ensures ServerOk(n, h, id, OnAppend(sv, args).value.0) && ClaimsKept(sv, OnAppend(sv, args).value.0)
  {
    hide HistOk, ServerOk, LogOk, CommitOk;
    Basics(n, h, id, sv);
    FollowOk(n, h, id, sv, args);
    var t, sv' := Follow(sv, args), OnAppend(sv, args).value.0;
    if OnAppend(sv, args).value.1.success && args.leaderCommit > sv.commitIndex {
      PrevMatches(n, h, sv.log, args);
      var k, leader := args.leaderCommit, h.leaderLog[args.term];
      assert sv.log[..k + 1] == sv.log[..args.prevLogIndex + 1][..k + 1];
      assert leader[..k + 1] == leader[..args.prevLogIndex + 1][..k + 1];
      GrowsSame(h);
      CommitOkGrows(n, h, h, k, leader, sv.log, args.term, args.term);
      assert sv' == t.(commitIndex := k);
      CommitIndexOk(n, h, id, t, k);
    }
  }

  /** The merged log: the old one, if it holds all that was sent, and else the
      leader's log up to the last entry sent. */
  lemma {:induction false} MergeLeader(n: nat, h: History, log: Log, args: AppendArgs)
    requires HistOk(n, h) && LogOk(h, log) && AppendOk(n, h, args)
    requires args.prevLogIndex < |log|
    requires log[..args.prevLogIndex + 1] == h.leaderLog[args.term][..args.prevLogIndex + 1]
    ensures var m, leader := args.prevLogIndex + |args.entries|, h.leaderLog[args.term];
            var log' := MergeAt(log, args.prevLogIndex + 1, args.entries);
            || (log' == log && leader[..m + 1] <= log)
            || (log' == leader[..m + 1] && Clash(log, leader, m))
  {
    hide HistOk, LogOk, CommitOk, MergeAt, Clash;
    LeaderLogOk(n, h, args.term);
    MergeAgrees(h, log, args);
  }

  lemma {:induction false} LeaderLogOk(n: nat, h: History, term: int)
    requires HistOk(n, h) && term in h.leaderLog
    ensures LogOk(h, h.leaderLog[term])
  {
    assert TermOk(n, h, term);
  }

  /** What both logs begin with, the merged log begins with. */
  lemma {:induction false} MergeRetains(p: Log, log: Log, leader: Log, m: int, log': Log)
    requires p <= log && p <= leader && 0 <= m < |leader|
    requires (log' == log && leader[..m + 1] <= log) || (log' == leader[..m + 1] && Clash(log, leader, m))
    ensures p <= log'
  {
    if log' == leader[..m + 1] && Clash(log, leader, m) && |log| > m {
      var j :| 0 <= j <= m && j < |log| && log[j] != leader[j];
      assert |p| <= j;
    }
  }

  lemma {:induction false} ConfirmGrows(h: History, id: nat, term: int, m: nat)
    ensures var h' := Confirm(h, id, term, m);
            && Grows(h, h') && OnlyBy(h, h', id)
            && (id, term) in h'.acked && h'.acked[(id, term)] >= m
            && h'.elected == h.elected && h'.leaderLog == h.leaderLog && h'.electLog == h.electLog && h'.ballots == h.ballots
  {
  }

  lemma {:induction false} ConfirmHistOk(n: nat, h: History, id: nat, term: int, m: nat)
    requires HistOk(n, h) && term in h.leaderLog && m < |h.leaderLog[term]|
    requires forall t :: (id, t) in h.ballots ==> t <= term
    ensures HistOk(n, Confirm(h, id, term, m))
  {
    hide TermOk, BallotOk, Grows, OnlyBy;
    var h' := Confirm(h, id, term, m);
    ConfirmGrows(h, id, term, m);
    forall t | t in h'.elected
      ensures TermOk(n, h', t)
    {
      OldTermOk(n, h, h', t);
    }
    forall v, t | (v, t) in h'.ballots
      ensures BallotOk(n, h', v, t)
    {
      OldBallotOk(n, h, h', v, t);
    }
    forall v, t | (v, t) in h'.acked
      ensures AckedOk(h', v, t)
    {
      if (v, t) in h.acked {
        assert AckedOk(h, v, t);
      }
    }
  }

  /** The receiver keeps every prefix it has to keep. */
  lemma {:induction false} MergeKeepsRetention(n: nat, h: History, h': History, id: nat, sv: Server, args: AppendArgs, log': Log)
    requires HistOk(n, h) && AppendOk(n, h, args)
    requires RetainsAll(h, id, sv.log, args.term + 1, args.term)
    requires var m, leader := args.prevLogIndex + |args.entries|, h.leaderLog[args.term];
             && ((log' == sv.log && leader[..m + 1] <= sv.log) || (log' == leader[..m + 1] && Clash(sv.log, leader, m)))
             && h' == Confirm(h, id, args.term, m)
    ensures RetainsAll(h', id, log', args.term + 1, args.term)
  {
    hide HistOk, CommitOk, Grows, OnlyBy;
    var bound, m, leader := args.term, args.prevLogIndex + |args.entries|, h.leaderLog[args.term];
    ConfirmGrows(h, id, args.term, m);
    forall term, i: nat | (id, term) in h'.acked && term < bound + 1 && i <= h'.acked[(id, term)]
      ensures RetainsAt(h', log', term, i, bound)
    {
      if (id, term) in h.acked && i <= h.acked[(id, term)] {
        assert RetainsAt(h, sv.log, term, i, bound);
        var p := h.leaderLog[term][..i + 1];
        if LaterHave(h, term, i, bound) {
          assert p <= leader;
          MergeRetains(p, sv.log, leader, m, log');
        }
      } else {
        assert term == bound && i <= m;
        assert leader[..i + 1] <= leader[..m + 1] <= log';
      }
    }
  }

  lemma {:induction false} MergedOk(n: nat, h: History, id: nat, sv: Server, args: AppendArgs)
    requires HistOk(n, h) && ServerOk(n, h, id, sv) && AppendOk(n, h, args) && args.leaderId != id
    requires args.term >= sv.currentTerm && args.entries != [] && OnAppend(sv, args).Some? && OnAppend(sv, args).value.1.success
    ensures var h' := Confirm(h, id, args.term, args.prevLogIndex + |args.entries|);
            && HistOk(n, h') && ServerOk(n, h', id, OnAppend(sv, args).value.0)
            && ClaimsKept(sv, OnAppend(sv, args).value.0)
  {
    hide HistOk, LogOk, RetainsAll, CommitOk, Grows, OnlyBy, ServerOk, MergeAt, Clash;
    var t, sv' := Follow(sv, args), OnAppend(sv, args).value.0;
    var m := args.prevLogIndex + |args.entries|;
    var h' := Confirm(h, id, args.term, m);
    Basics(n, h, id, sv);
    FollowOk(n, h, id, sv, args);
    PrevMatches(n, h, sv.log, args);
    MergeLeader(n, h, sv.log, args);
    var log' := MergeAt(sv.log, args.prevLogIndex + 1, args.entries);
    ServerTerms(n, h, id, sv);
    ServerTerms(n, h, id, t);
    MergeKeepsRetention(n, h, h', id, t, args, log');
    ConfirmGrows(h, id, args.term, m);
    ConfirmHistOk(n, h, id, args.term, m);
    MergedShaped(n, h, h', sv, args, log');
    assert sv' == t.(log := log', commitIndex := args.leaderCommit);
    ReceiverOk(n, h, h', id, t, sv');
  }

  /** A follower with a new log and commit index, and more confirmed. */
  lemma {:induction false} ReceiverOk(n: nat, h: History, h': History, id: nat, t: Server, sv': Server)
    requires ServerOk(n, h, id, t) && t.role == Follower
    requires sv' == t.(log := sv'.log, commitIndex := sv'.commitIndex)
    requires h' == h.(acked := h'.acked) && forall k :: (id, k) in h'.acked ==> (id, k) in h.acked || k == t.currentTerm
    requires LogOk(h', sv'.log) && TermsBelow(sv'.log, t.currentTerm)
    requires CommitOk(n, h', sv'.commitIndex, sv'.log, t.currentTerm)
    requires RetainsAll(h', id, sv'.log, t.currentTerm + 1, t.currentTerm)
    ensures ServerOk(n, h', id, sv')
  {
  }

  lemma {:induction false} MergedShaped(n: nat, h: History, h': History, sv: Server, args: AppendArgs, log': Log)
    requires HistOk(n, h) && LogOk(h, sv.log) && AppendOk(n, h, args) && Grows(h, h')
    requires TermsBelow(sv.log, sv.currentTerm) && sv.currentTerm <= args.term
    requires var m, leader := args.prevLogIndex + |args.entries|, h.leaderLog[args.term];
             (log' == sv.log && leader[..m + 1] <= sv.log) || (log' == leader[..m + 1] && Clash(sv.log, leader, m))
    ensures LogOk(h', log') && TermsBelow(log', args.term)
    ensures |log'| - 1 >= args.leaderCommit && CommitOk(n, h', args.leaderCommit, log', args.term)
  {
    hide HistOk, LogOk, CommitOk, Grows;
    var m, leader := args.prevLogIndex + |args.entries|, h.leaderLog[args.term];
    LeaderLogOk(n, h, args.term);
    LogPrefixOk(h, leader, m + 1);
    assert args.term in h.elected;
    LeaderTerms(n, h, args.term);
    LogOkGrows(h, h', log');
    var k := args.leaderCommit;
    assert log'[..k + 1] == leader[..m + 1][..k + 1] == leader[..k + 1];
    CommitOkGrows(n, h, h', k, leader, log', args.term, args.term);
  }

  lemma {:induction false} AppendFacts(n: nat, h: History, id: nat, sv: Server, args: AppendArgs)
    requires HistOk(n, h) && ServerOk(n, h, id, sv) && AppendOk(n, h, args) && args.leaderId != id && OnAppend(sv, args).Some?
    ensures var (sv', reply) := OnAppend(sv, args).value;
            var h' := if reply.success && args.entries != [] then Confirm(h, id, args.term, args.prevLogIndex + |args.entries|) else h;
            && Grows(h, h') && OnlyBy(h, h', id) && HistOk(n, h') && h'.ballots == h.ballots
            && ServerOk(n, h', id, sv') && ClaimsKept(sv, sv') && sv'.lastApplied == sv.lastApplied
            && (reply.success && args.entries != [] ==>
                  (id, args.term) in h'.acked && h'.acked[(id, args.term)] >= args.prevLogIndex + |args.entries|)
  {
    hide HistOk, ServerOk, Grows, OnlyBy, MergeAt, CommitOk;
    GrowsSame(h);
    var reply := OnAppend(sv, args).value.1;
    if args.term < sv.currentTerm {
    } else if args.entries == [] {
      HeartbeatOk(n, h, id, sv, args);
    } else if reply.success {
      ConfirmGrows(h, id, args.term, args.prevLogIndex + |args.entries|);
      MergedOk(n, h, id, sv, args);
    } else {
      FollowOk(n, h, id, sv, args);
    }
  }

  lemma {:induction false} HandleAppendKeeps(n: nat, s: System, r: Request)
    requires Inv(n, s) && r in s.requests && r.to < n && OnAppend(s.servers[r.to], r.args).Some?
    ensures Inv(n, DoHandleAppend(s, r))
  {
    hide HistOk, Grows, OnlyBy, ServerOk, AppliedOk, ElectionOk, BallotClaim, AppendOk, OnAppend, AnswerOk, Confirm;
    var id, s', h := r.to, DoHandleAppend(s, r), s.hist;
    var sv, sv' := s.servers[id], s'.servers[id];
    assert ServerOk(n, h, id, sv) && AppliedOk(n, h, sv, s.applied[id]) && RequestOk(n, h, r);
    AppendFacts(n, h, id, sv, r.args);
    AppendOkGrows(n, h, s'.hist, r.args);
    AppliedOkGrows(n, h, s'.hist, sv, s.applied[id]);
    SameApplied(n, s'.hist, sv, sv', s.applied[id]);
    assert AckOk(n, s'.hist, Ack(id, r.args, OnAppend(sv, r.args).value.1));
    assert StepBy(n, s, s', id);
    StepKeepsInv(n, s, s', id);
  }

  // ---- counting confirmations -----------------------------------------------------------------

  ghost function HolderSet(matchIndex: seq<int>, me: nat, cmt: int): set<nat> {
    set j | j in Servers(|matchIndex|) && (j == me || matchIndex[j] >= cmt)
  }

  lemma {:induction false} HoldersCount(matchIndex: seq<int>, me: nat, cmt: int)
    requires me < |matchIndex|
    ensures Holders(matchIndex, me, cmt) == |HolderSet(matchIndex, me, cmt)|
  {
    HoldersUpTo(matchIndex, me, cmt, |matchIndex|);
    assert matchIndex[..|matchIndex|] == matchIndex;
    assert HolderSet(matchIndex, me, cmt) == Counted(matchIndex, me, cmt, |matchIndex|) + {me};
  }

  ghost function Counted(matchIndex: seq<int>, me: nat, cmt: int, k: nat): set<nat>
    requires k <= |matchIndex|
  {
    set j | j in Servers(k) && j != me && matchIndex[j] >= cmt
  }

  lemma {:induction false} HoldersUpTo(matchIndex: seq<int>, me: nat, cmt: int, k: nat)
    requires k <= |matchIndex|
    ensures Holders(matchIndex[..k], me, cmt) == 1 + |Counted(matchIndex, me, cmt, k)|
  {
    if k > 0 {
      HoldersUpTo(matchIndex, me, cmt, k - 1);
      HoldersSnoc(matchIndex, me, cmt, k);
      CountedSnoc(matchIndex, me, cmt, k);
    } else {
      assert Counted(matchIndex, me, cmt, 0) == {};
    }
  }

  lemma {:induction false} HoldersSnoc(matchIndex: seq<int>, me: nat, cmt: int, k: nat)
    requires 0 < k <= |matchIndex|
    ensures Holders(matchIndex[..k], me, cmt) ==
            Holders(matchIndex[..k - 1], me, cmt) + if k - 1 != me && matchIndex[k - 1] >= cmt then 1 else 0
  {
    assert matchIndex[..k][..k - 1] == matchIndex[..k - 1];
  }

  lemma {:induction false} CountedSnoc(matchIndex: seq<int>, me: nat, cmt: int, k: nat)
    requires 0 < k <= |matchIndex|
    ensures |Counted(matchIndex, me, cmt, k)| ==
            |Counted(matchIndex, me, cmt, k - 1)| + if k - 1 != me && matchIndex[k - 1] >= cmt then 1 else 0
  {
    var more := Counted(matchIndex, me, cmt, k - 1);
    if k - 1 != me && matchIndex[k - 1] >= cmt {
      assert Counted(matchIndex, me, cmt, k) == more + {k - 1};
    } else {
      assert Counted(matchIndex, me, cmt, k) == more;
    }
  }

  /** The leader's count is a majority of servers that really hold the entry. */
  lemma {:induction false} MajorityHolds(n: nat, h: History, id: nat, term: int, matchIndex: seq<int>, cmt: int)
    requires |matchIndex| == n && id < n && cmt > 0 && Holders(matchIndex, id, cmt) > n / 2
    requires (id, term) in h.acked && h.acked[(id, term)] >= cmt
    requires forall j :: 0 <= j < n && j != id ==> matchIndex[j] <= Acked(h, j, term)
    ensures 2 * |Holding(n, h, term, cmt)| > n
  {
    HoldersCount(matchIndex, id, cmt);
    forall j | j in HolderSet(matchIndex, id, cmt)
      ensures j in Holding(n, h, term, cmt)
    {
    }
    SubsetSize(HolderSet(matchIndex, id, cmt), Holding(n, h, term, cmt));
  }

  lemma {:induction false} AckFacts(n: nat, h: History, id: nat, sv: Server, a: Ack)
    requires HistOk(n, h) && ServerOk(n, h, id, sv) && AckOk(n, h, a) && id == a.args.leaderId && id < n
    requires OnAppendReply(sv, id, a.from, a.args, a.reply, n).Some?
    ensures var sv' := OnAppendReply(sv, id, a.from, a.args, a.reply, n).value;
            ServerOk(n, h, id, sv') && ClaimsKept(sv, sv') && sv'.lastApplied == sv.lastApplied
  {
    hide HistOk, ServerOk, CommitOk, Holders;
    var sv' := OnAppendReply(sv, id, a.from, a.args, a.reply, n).value;
    Basics(n, h, id, sv);
    if a.args.term != sv.currentTerm {
    } else if a.reply.term > sv.currentTerm {
      StepDownOk(n, h, id, sv, a.reply.term);
    } else if !a.reply.success {
      NextIndexOk(n, h, id, sv, sv');
    } else if a.args.entries != [] {
      LeadsIsLeader(n, h, id, sv);
      LeaderFacts(n, h, id, sv);
      CommitFacts(n, h, id, sv, sv', a);
    }
  }

  lemma {:induction false} NextIndexOk(n: nat, h: History, id: nat, sv: Server, sv': Server)
    requires ServerOk(n, h, id, sv) && sv' == sv.(nextIndex := sv'.nextIndex) && |sv'.nextIndex| == n
    requires forall j :: 0 <= j < n ==> sv'.nextIndex[j] <= sv.nextIndex[j]
    ensures ServerOk(n, h, id, sv')
  {
    hide LogOk, RetainsAll, CommitOk, Dated, VotedFor;
  }

  lemma {:induction false} LeadsIsLeader(n: nat, h: History, id: nat, sv: Server)
    requires ServerOk(n, h, id, sv) && Leads(h, id, sv.currentTerm)
    ensures sv.role == Leader && (id, sv.currentTerm) in h.acked && h.acked[(id, sv.currentTerm)] == |sv.log| - 1
    ensures |sv.matchIndex| == n && forall j :: 0 <= j < n && j != id ==> sv.matchIndex[j] <= Acked(h, j, sv.currentTerm)
  {
  }

  lemma {:induction false} CommitFacts(n: nat, h: History, id: nat, sv: Server, sv': Server, a: Ack)
    requires HistOk(n, h) && ServerOk(n, h, id, sv) && AckOk(n, h, a) && id == a.args.leaderId && id < n
    requires sv.role == Leader && a.args.term == sv.currentTerm && a.reply.success && a.args.entries != []
    requires a.reply.term <= sv.currentTerm
    requires OnAppendReply(sv, id, a.from, a.args, a.reply, n) == Some(sv')
    ensures ServerOk(n, h, id, sv')
  {
    hide HistOk, ServerOk, CommitOk, Holders, AckOk, Acked, Holding;
    LeaderFacts(n, h, id, sv);
    AckTells(n, h, a);
    var cmt := a.args.prevLogIndex + |a.args.entries|;
    var t := sv.(nextIndex := sv.nextIndex[a.from := cmt + 1], matchIndex := sv.matchIndex[a.from := cmt]);
    MatchOk(n, h, id, sv, a.from, cmt);
    LeadsIsLeader(n, h, id, t);
    if sv'.commitIndex != sv.commitIndex {
      assert cmt < |sv.log| && sv' == t.(commitIndex := cmt);
      MajorityHolds(n, h, id, sv.currentTerm, t.matchIndex, cmt);
      CommitHere(n, h, sv.currentTerm, cmt);
      CommitIndexOk(n, h, id, t, cmt);
    } else {
      assert sv' == t;
    }
  }

  lemma {:induction false} AckTells(n: nat, h: History, a: Ack)
    requires AckOk(n, h, a) && a.reply.success && a.args.entries != []
    ensures a.from < n && a.from != a.args.leaderId && a.args.term in h.leaderLog
    ensures var cmt := a.args.prevLogIndex + |a.args.entries|;
            0 < cmt < |h.leaderLog[a.args.term]| && cmt <= Acked(h, a.from, a.args.term)
  {
  }

  lemma {:induction false} MatchOk(n: nat, h: History, id: nat, sv: Server, from: nat, cmt: int)
    requires ServerOk(n, h, id, sv) && sv.role == Leader && from < n && 0 <= cmt < |sv.log|
    requires from != id && cmt <= Acked(h, from, sv.currentTerm)
    ensures |sv.nextIndex| == n && |sv.matchIndex| == n
    ensures ServerOk(n, h, id, sv.(nextIndex := sv.nextIndex[from := cmt + 1], matchIndex := sv.matchIndex[from := cmt]))
  {
    hide LogOk, RetainsAll, CommitOk, Dated, VotedFor, Acked;
  }

  lemma {:induction false} CommitIndexOk(n: nat, h: History, id: nat, sv: Server, k: int)
    requires ServerOk(n, h, id, sv) && CommitOk(n, h, k, sv.log, sv.currentTerm)
    ensures ServerOk(n, h, id, sv.(commitIndex := k))
  {
    hide LogOk, RetainsAll, CommitOk, Dated, VotedFor, Acked;
  }

  lemma {:induction false} CommitHere(n: nat, h: History, term: int, cmt: int)
    requires term in h.leaderLog && 0 < cmt < |h.leaderLog[term]| && h.leaderLog[term][cmt].term == term
    requires 2 * |Holding(n, h, term, cmt)| > n
    ensures CommitOk(n, h, cmt, h.leaderLog[term], term)
  {
    assert CommitWitness(n, h, cmt, h.leaderLog[term], term, term, cmt);
  }

  lemma {:induction false} HandleAckKeeps(n: nat, s: System, a: Ack)
    requires Inv(n, s) && a in s.acks && 0 <= a.args.leaderId < n
    requires OnAppendReply(s.servers[a.args.leaderId], a.args.leaderId, a.from, a.args, a.reply, n).Some?
    ensures Inv(n, DoHandleAck(n, s, a))
  {
    hide HistOk, Grows, OnlyBy, ServerOk, AppliedOk, ElectionOk, BallotClaim, AnswerOk, AckOk, RequestOk, OnAppendReply;
    var id, s', h := a.args.leaderId, DoHandleAck(n, s, a), s.hist;
    var sv, sv' := s.servers[id], s'.servers[id];
    assert ServerOk(n, h, id, sv) && AppliedOk(n, h, sv, s.applied[id]) && AckOk(n, h, a);
    AckFacts(n, h, id, sv, a);
    GrowsSame(h);
    SameApplied(n, h, sv, sv', s.applied[id]);
    assert StepBy(n, s, s', id);
    StepKeepsInv(n, s, s', id);
  }

  // ---- Start ------------------------------------------------------------------------------------

  lemma {:induction false} ReadStateKeeps(n: nat, s: System, id: nat)
    requires Inv(n, s) && id < n
    ensures Inv(n, DoReadState(s, id))
  {
    hide HistOk, ServerOk, AppliedOk, ElectionOk, BallotClaim, AckOk, RequestOk;
  }

  lemma {:induction false} ExtendGrows(h: History, id: nat, term: int, log: Log, entry: LogEntry)
    requires Leads(h, id, term) && term in h.leaderLog && h.leaderLog[term] == log && entry.term == term
    requires (id, term) in h.acked && h.acked[(id, term)] <= |log|
    ensures var h' := Extend(h, term, id, log + [entry]);
            && Grows(h, h') && OnlyBy(h, h', id) && h'.ballots == h.ballots && h'.elected == h.elected
            && h'.leaderLog == h.leaderLog[term := log + [entry]] && h'.acked == h.acked[(id, term) := |log|]
            && h'.electLog == h.electLog
  {
  }

  lemma {:induction false} ExtendHistOk(n: nat, h: History, id: nat, term: int, log: Log, entry: LogEntry)
    requires HistOk(n, h) && Leads(h, id, term) && h.leaderLog[term] == log && entry.term == term
    requires (id, term) in h.acked && h.acked[(id, term)] <= |log| && id < n
    requires forall t :: (id, t) in h.ballots ==> t <= term
    ensures HistOk(n, Extend(h, term, id, log + [entry]))
  {
    hide TermOk, BallotOk, Grows, OnlyBy, Extend;
    var h' := Extend(h, term, id, log + [entry]);
    ExtendGrows(h, id, term, log, entry);
    forall t | t in h'.elected
      ensures TermOk(n, h', t)
    {
      if t == term {
        ExtendedTermOk(n, h, h', id, term, log, entry);
      } else {
        OldTermOk(n, h, h', t);
      }
    }
    forall v, t | (v, t) in h'.ballots
      ensures BallotOk(n, h', v, t)
    {
      OldBallotOk(n, h, h', v, t);
    }
    forall v, t | (v, t) in h'.acked
      ensures AckedOk(h', v, t)
    {
      if (v, t) in h.acked {
        assert AckedOk(h, v, t);
      }
    }
  }

  lemma {:induction false} ExtendedTermOk(n: nat, h: History, h': History, id: nat, term: int, log: Log, entry: LogEntry)
    requires HistOk(n, h) && Leads(h, id, term) && h.leaderLog[term] == log && entry.term == term
    requires h' == Extend(h, term, id, log + [entry]) && Grows(h, h')
    ensures term in h'.electLog && TermOk(n, h', term)
  {
    assert TermOk(n, h, term);
    LeaderTerms(n, h, term);
    GrowsLogs(h, h');
    LongerLogOk(h, h', log, entry);
    SameVoters(n, h, h', term, id);
    LongerSorted(log, entry);
    hide HistOk, LogOk, Grows, TermsBelow, TermsSorted, EarlyVoters;
  }

  lemma {:induction false} SameVoters(n: nat, h: History, h': History, term: int, id: nat)
    requires h'.ballots == h.ballots
    ensures EarlyVoters(n, h', term, id) == EarlyVoters(n, h, term, id)
  {
  }

  lemma {:induction false} LongerSorted(log: Log, entry: LogEntry)
    requires TermsSorted(log) && TermsBelow(log, entry.term)
    ensures TermsSorted(log + [entry])
  {
  }

  lemma {:induction false} ExtendRetains(n: nat, h: History, h': History, id: nat, term: int, log: Log, entry: LogEntry)
    requires HistOk(n, h) && Grows(h, h') && RetainsAll(h, id, log, term + 1, term) && term in h'.leaderLog
    requires h'.leaderLog[term] == log + [entry] && SameAcks(h, h', id, term)
    requires (id, term) in h'.acked && h'.acked[(id, term)] == |log|
    ensures RetainsAll(h', id, log + [entry], term + 1, term)
  {
    RetainsDrop(h, id, log, term);
    RetainsAllGrows(n, h, h', id, log, term, term, term);
    var log' := log + [entry];
    forall t, i: nat | (id, t) in h'.acked && t < term && i <= h'.acked[(id, t)]
      ensures RetainsAt(h', log', t, i, term)
    {
      assert RetainsAt(h', log, t, i, term);
    }
    forall i: nat | i <= h'.acked[(id, term)]
      ensures RetainsAt(h', log', term, i, term)
    {
    }
    RetainsJoin(h', id, log', term);
  }

  lemma {:induction false} StartFacts(n: nat, h: History, id: nat, sv: Server, command: Command)
    requires HistOk(n, h) && ServerOk(n, h, id, sv) && sv.role == Leader && id < n
    ensures var sv' := Append(sv, sv.currentTerm, command);
            var h' := Extend(h, sv.currentTerm, id, sv'.log);
            && Grows(h, h') && OnlyBy(h, h', id) && HistOk(n, h') && h'.ballots == h.ballots
            && ServerOk(n, h', id, sv') && ClaimsKept(sv, sv')
  {
    hide HistOk, ServerOk, Grows, OnlyBy, LogOk, RetainsAll, CommitOk;
    var sv', t := Append(sv, sv.currentTerm, command), sv.currentTerm;
    var entry := LogEntry(command, t);
    var h' := Extend(h, t, id, sv'.log);
    Basics(n, h, id, sv);
    LeaderFacts(n, h, id, sv);
    LeadsIsLeader(n, h, id, sv);
    ServerTerms(n, h, id, sv);
    ExtendGrows(h, id, t, sv.log, entry);
    ExtendHistOk(n, h, id, t, sv.log, entry);
    GrowsLogs(h, h');
    LongerLogOk(h, h', sv.log, entry);
    ExtendRetains(n, h, h', id, t, sv.log, entry);
    assert sv.log[..sv.commitIndex + 1] == sv'.log[..sv.commitIndex + 1];
    CommitOkGrows(n, h, h', sv.commitIndex, sv.log, sv'.log, t, t);
    LeaderAppendOk(n, h, h', id, sv, sv');
  }

  lemma {:induction false} LeaderAppendOk(n: nat, h: History, h': History, id: nat, sv: Server, sv': Server)
    requires ServerOk(n, h, id, sv) && sv.role == Leader
    requires sv' == sv.(log := sv'.log) && |sv'.log| == |sv.log| + 1
    requires h' == h.(leaderLog := h.leaderLog[sv.currentTerm := sv'.log], acked := h.acked[(id, sv.currentTerm) := |sv.log|])
    requires LogOk(h', sv'.log) && TermsBelow(sv'.log, sv.currentTerm)
    requires CommitOk(n, h', sv.commitIndex, sv'.log, sv.currentTerm)
    requires RetainsAll(h', id, sv'.log, sv.currentTerm + 1, sv.currentTerm)
    ensures ServerOk(n, h', id, sv')
  {
    hide LogOk, RetainsAll, CommitOk;
  }

  lemma {:induction false} AppendCommandKeeps(n: nat, s: System, id: nat, term: int, command: Command)
    requires Inv(n, s) && id < n && StartAtomic(s, AppendCommand(id, term, command))
    ensures Inv(n, DoAppendCommand(s, id, term, command))
  {
    hide HistOk, Grows, OnlyBy, ServerOk, AppliedOk, ElectionOk, BallotClaim, AnswerOk, AckOk, RequestOk, Extend;
    var s', h := DoAppendCommand(s, id, term, command), s.hist;
    var sv, sv' := s.servers[id], s'.servers[id];
    assert ServerOk(n, h, id, sv) && AppliedOk(n, h, sv, s.applied[id]);
    StartFacts(n, h, id, sv, command);
    AppliedOkGrows(n, h, s'.hist, sv, s.applied[id]);
    SameApplied(n, s'.hist, sv, sv', s.applied[id]);
    assert StepBy(n, s, s', id);
    StepKeepsInv(n, s, s', id);
  }

  // ---- applying --------------------------------------------------------------------------------------

  lemma {:induction false} AppliedNext(n: nat, h: History, sv: Server, ap: seq<Command>)
    requires AppliedOk(n, h, sv, ap) && CommitOk(n, h, sv.commitIndex, sv.log, sv.currentTerm)
    requires sv.commitIndex > sv.lastApplied
    ensures sv.lastApplied + 1 < |sv.log|
    ensures AppliedOk(n, h, sv.(lastApplied := sv.lastApplied + 1), ap + [sv.log[sv.lastApplied + 1].entry])
  {
    var k, c := sv.lastApplied + 1, sv.commitIndex;
    var term, i :| CommitWitness(n, h, c, sv.log, sv.currentTerm, term, i);
    assert sv.log[k] == sv.log[..c + 1][k] == h.leaderLog[term][..c + 1][k] == h.leaderLog[term][k];
    assert AppliedAt(n, h, sv.log[k].entry, k, term, i);
    assert AppliedWell(n, h, sv.log[k].entry, k);
  }

  lemma {:induction false} ApplyOneKeeps(n: nat, s: System, id: nat)
    requires Inv(n, s) && id < n && Apply(s.servers[id]).Some?
    ensures Inv(n, DoApplyOne(s, id))
  {
    hide HistOk, Grows, OnlyBy, ServerOk, AppliedOk, ElectionOk, BallotClaim, AnswerOk, AckOk, RequestOk;
    var s', h := DoApplyOne(s, id), s.hist;
    var sv, sv' := s.servers[id], s'.servers[id];
    assert ServerOk(n, h, id, sv) && AppliedOk(n, h, sv, s.applied[id]);
    GrowsSame(h);
    AppliedServerOk(n, h, id, sv, sv');
    if sv.commitIndex > sv.lastApplied {
      AppliedNext(n, h, sv, s.applied[id]);
    }
    assert AppliedOk(n, h, sv', s'.applied[id]);
    assert StepBy(n, s, s', id);
    StepKeepsInv(n, s, s', id);
  }

  lemma {:induction false} AppliedServerOk(n: nat, h: History, id: nat, sv: Server, sv': Server)
    requires ServerOk(n, h, id, sv) && sv' == sv.(lastApplied := sv'.lastApplied)
    ensures ServerOk(n, h, id, sv') && ClaimsKept(sv, sv') && CommitOk(n, h, sv.commitIndex, sv.log, sv.currentTerm)
  {
    hide LogOk, RetainsAll, CommitOk, Dated, VotedFor;
  }
}
