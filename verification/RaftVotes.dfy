/** Election safety needs E1 and E5 only: an invariant about terms, votes and roles that
    says nothing about logs, commit indices or confirmations
    (src/raft/raft.go:300-336, 424-437, 473-509, 538-576, 805-818). */
module RaftVotes {
  import opened Collections
  import opened RaftServer
  import opened RaftSystem
  import opened RaftInvariant

  // ---- the invariant --------------------------------------------------------------------

  /** What concerns the votes of one server. */
  ghost predicate VoterOk(h: History, id: nat, sv: Server) {
    && (forall t :: (id, t) in h.ballots ==> t <= sv.currentTerm)
    && (forall t :: t in h.elected && h.elected[t] == id ==> t <= sv.currentTerm)
    && VoteOk(h, id, sv)
    && (sv.role == Leader <==> Leads(h, id, sv.currentTerm))
    && (sv.role == Candidate ==> sv.voteFor == id && (id, sv.currentTerm) in h.ballots && h.ballots[(id, sv.currentTerm)].cand == id)
  }

  /** A leader was elected by a majority of first votes given before it led. */
  ghost predicate WinOk(n: nat, h: History, term: int)
    requires term in h.elected
  {
    h.elected[term] < n && 2 * |EarlyVoters(n, h, term, h.elected[term])| > n
  }

  ghost predicate CastOk(n: nat, h: History, voter: nat, term: int)
    requires (voter, term) in h.ballots
  {
    voter < n && 0 <= h.ballots[(voter, term)].cand < n && (term !in h.elected ==> h.ballots[(voter, term)].early)
  }

  ghost predicate CountOk(n: nat, h: History, e: Election) {
    && 0 <= e.args.candidateId < n
    && e.voteNum == 1 + |e.counted|
    && (forall v :: v in e.counted ==> v < n && v != e.args.candidateId && VotedFor(h, v, e.args.term, e.args.candidateId))
  }

  ghost predicate FromLeader(n: nat, h: History, r: Request) {
    Leads(h, r.args.leaderId, r.args.term) && 0 <= r.args.leaderId < n && r.to != r.args.leaderId
  }

  ghost predicate RecordOk(n: nat, h: History) {
    && (forall t :: t in h.elected ==> WinOk(n, h, t))
    && (forall v, t :: (v, t) in h.ballots ==> CastOk(n, h, v, t))
  }

  ghost predicate VotesInv(n: nat, s: System) {
    && |s.servers| == n
    && RecordOk(n, s.hist)
    && (forall id: nat :: id < n ==> VoterOk(s.hist, id, s.servers[id]))
    && (forall k :: 0 <= k < |s.elections| ==> CountOk(n, s.hist, s.elections[k]))
    && (forall a :: a in s.answers ==> AnswerOk(n, s, a))
    && (forall r :: r in s.requests ==> FromLeader(n, s.hist, r))
  }

  // ---- the frame ------------------------------------------------------------------------

  /** Votes and leaders are only added, and only for server x. */
  ghost predicate Adds(h: History, h': History, x: nat) {
    && (forall t :: t in h.elected ==> t in h'.elected && h'.elected[t] == h.elected[t])
    && (forall v, t :: (v, t) in h.ballots ==> (v, t) in h'.ballots && h'.ballots[(v, t)] == h.ballots[(v, t)])
    && (forall v, t :: (v, t) in h'.ballots && v != x ==> (v, t) in h.ballots)
    && (forall t :: t in h'.elected && t !in h.elected ==> h'.elected[t] == x)
  }

  /** What a step by server x has to show. */
  ghost predicate VoteStep(n: nat, s: System, s': System, x: nat)
    requires |s.servers| == n
  {
    && x < n && |s'.servers| == n
    && (forall j :: 0 <= j < n && j != x ==> s'.servers[j] == s.servers[j])
    && Adds(s.hist, s'.hist, x)
    && RecordOk(n, s'.hist)
    && VoterOk(s'.hist, x, s'.servers[x])
    && SameElections(s, s')
    && (forall k :: 0 <= k < |s'.elections| ==>
          (k < |s.elections| && s'.elections[k] == s.elections[k]) || CountOk(n, s'.hist, s'.elections[k]))
    && (forall a :: a in s'.answers && a !in s.answers ==> AnswerOk(n, s', a))
    && (forall r :: r in s'.requests && r !in s.requests ==> FromLeader(n, s'.hist, r))
  }

  lemma {:induction false} VoteStepKeeps(n: nat, s: System, s': System, x: nat)
    requires VotesInv(n, s) && VoteStep(n, s, s', x)
    ensures VotesInv(n, s')
  {
    hide RecordOk, VoterOk, CountOk, AnswerOk, FromLeader;
    hide Adds;
    forall id: nat | id < n
      ensures VoterOk(s'.hist, id, s'.servers[id])
    {
      if id != x {
        OtherVoter(n, s.hist, s'.hist, x, id, s.servers[id]);
      }
    }
    forall k | 0 <= k < |s'.elections|
      ensures CountOk(n, s'.hist, s'.elections[k])
    {
      if k < |s.elections| && s'.elections[k] == s.elections[k] {
        CountAdds(n, s.hist, s'.hist, x, s.elections[k]);
      }
    }
    forall a | a in s'.answers
      ensures AnswerOk(n, s', a)
    {
      if a in s.answers {
        AnswerAdds(n, s, s', x, a);
      }
    }
    forall r | r in s'.requests
      ensures FromLeader(n, s'.hist, r)
    {
      if r in s.requests {
        FromLeaderAdds(n, s.hist, s'.hist, x, r);
      }
    }
  }

  lemma {:induction false} OtherVoter(n: nat, h: History, h': History, x: nat, id: nat, sv: Server)
    requires Adds(h, h', x) && id != x && VoterOk(h, id, sv)
    ensures VoterOk(h', id, sv)
  {
  }

  lemma {:induction false} CountAdds(n: nat, h: History, h': History, x: nat, e: Election)
    requires Adds(h, h', x) && CountOk(n, h, e)
    ensures CountOk(n, h', e)
  {
  }

  lemma {:induction false} AnswerAdds(n: nat, s: System, s': System, x: nat, a: Answer)
    requires AnswerOk(n, s, a) && Adds(s.hist, s'.hist, x) && SameElections(s, s')
    ensures AnswerOk(n, s', a)
  {
  }

  lemma {:induction false} FromLeaderAdds(n: nat, h: History, h': History, x: nat, r: Request)
    requires Adds(h, h', x) && FromLeader(n, h, r)
    ensures FromLeader(n, h', r)
  {
  }

  /** Records survive when votes and leaders are added. */
  lemma {:induction false} RecordAdds(n: nat, h: History, h': History, x: nat)
    requires RecordOk(n, h) && Adds(h, h', x)
    requires forall t :: t in h'.elected && t !in h.elected ==> WinOk(n, h', t)
    requires forall v, t :: (v, t) in h'.ballots && (v, t) !in h.ballots ==> CastOk(n, h', v, t)
    ensures RecordOk(n, h')
  {
    forall t | t in h'.elected
      ensures WinOk(n, h', t)
    {
      if t in h.elected {
        assert WinOk(n, h, t);
        SubsetSize(EarlyVoters(n, h, t, h.elected[t]), EarlyVoters(n, h', t, h.elected[t]));
      }
    }
    forall v, t | (v, t) in h'.ballots
      ensures CastOk(n, h', v, t)
    {
      if (v, t) in h.ballots {
        assert CastOk(n, h, v, t);
      }
    }
  }

  // ---- votes ------------------------------------------------------------------------------

  /** Recording a vote. */
  lemma {:induction false} CastAdds(n: nat, h: History, voter: nat, term: int, cand: int, log: Log, lastTerm: int, lastIndex: int)
    requires RecordOk(n, h) && voter < n && 0 <= cand < n
    ensures var h' := Vote(h, voter, term, cand, log, lastTerm, lastIndex);
            Adds(h, h', voter) && RecordOk(n, h')
  {
    hide RecordOk, WinOk;
    var h' := Vote(h, voter, term, cand, log, lastTerm, lastIndex);
    RecordAdds(n, h, h', voter);
  }

  lemma {:induction false} StartElectionVotes(n: nat, s: System, id: nat)
    requires VotesInv(n, s) && id < n
    ensures VotesInv(n, DoStartElection(s, id))
  {
    var sv, s' := s.servers[id], DoStartElection(s, id);
    if sv.role == Leader {
      assert s'.servers == s.servers;
    } else {
      assert VoterOk(s.hist, id, sv);
      CastAdds(n, s.hist, id, sv.currentTerm + 1, id, sv.log, LastTerm(sv.log), |sv.log| - 1);
      CampaignVoter(s.hist, id, sv);
      hide RecordOk, Adds, CountOk, AnswerOk, FromLeader, LastTerm, VoterOk, Vote, Campaign;
      CampaignTerm(sv, id);
      VoteStepKeeps(n, s, s', id);
    }
  }

  lemma {:induction false} CampaignTerm(sv: Server, id: nat)
    requires sv.role != Leader
    ensures Campaign(sv, id).currentTerm == sv.currentTerm + 1
  {
  }

  lemma {:induction false} CampaignVoter(h: History, id: nat, sv: Server)
    requires VoterOk(h, id, sv) && sv.role != Leader
    ensures VoterOk(Vote(h, id, sv.currentTerm + 1, id, sv.log, LastTerm(sv.log), |sv.log| - 1), id, Campaign(sv, id))
  {
  }

  lemma {:induction false} AddsNothing(h: History, h': History, x: nat)
    requires h'.elected == h.elected && h'.ballots == h.ballots
    ensures Adds(h, h', x)
  {
  }

  lemma {:induction false} SameRecord(n: nat, h: History, h': History)
    requires RecordOk(n, h) && h'.elected == h.elected && h'.ballots == h.ballots
    ensures RecordOk(n, h')
  {
    AddsNothing(h, h', 0);
    RecordAdds(n, h, h', 0);
  }

  lemma {:induction false} AskVotesVotes(n: nat, s: System, id: nat)
    requires VotesInv(n, s) && id < n
    ensures VotesInv(n, DoAskVotes(s, id))
  {
    var s' := DoAskVotes(s, id);
    AddsNothing(s.hist, s'.hist, id);
    assert CountOk(n, s'.hist, s'.elections[|s.elections|]);
    hide RecordOk, Adds, CountOk, AnswerOk, FromLeader, VoterOk;
    VoteStepKeeps(n, s, s', id);
  }

  lemma {:induction false} GrantedOk(n: nat, h: History, id: nat, sv: Server, args: VoteArgs)
    requires VoterOk(h, id, sv) && 0 <= args.candidateId < n && id != args.candidateId
    ensures var (sv', reply) := OnVote(sv, args);
            var h' := if reply.voteGranted then Vote(h, id, args.term, args.candidateId, sv.log, args.lastLogTerm, args.lastLogIndex) else h;
            VoterOk(h', id, sv') && (reply.voteGranted ==> VotedFor(h', id, args.term, args.candidateId))
  {
    hide UpToDate;
  }

  lemma {:induction false} HandleVoteVotes(n: nat, s: System, id: nat, e: nat)
    requires VotesInv(n, s) && id < n && e < |s.elections| && id != s.elections[e].args.candidateId
    ensures VotesInv(n, DoHandleVote(s, id, e))
  {
    var sv, s', args := s.servers[id], DoHandleVote(s, id, e), s.elections[e].args;
    assert VoterOk(s.hist, id, sv) && CountOk(n, s.hist, s.elections[e]);
    GrantedOk(n, s.hist, id, sv, args);
    CastAdds(n, s.hist, id, args.term, args.candidateId, sv.log, args.lastLogTerm, args.lastLogIndex);
    AddsNothing(s.hist, s.hist, id);
    hide RecordOk, Adds, CountOk, FromLeader, VoterOk, OnVote, Vote, VotedFor;
    VoteStepKeeps(n, s, s', id);
  }

  // ---- counting -----------------------------------------------------------------------------

  lemma {:induction false} TwoMore(a: set<nat>, x: nat, y: nat)
    requires x !in a && y !in a && x != y
    ensures |a + {x, y}| == |a| + 2
  {
    assert a + {x, y} == a + {x} + {y};
  }

  lemma {:induction false} WonTerm(n: nat, h: History, t: int)
    requires RecordOk(n, h) && t in h.elected
    ensures WinOk(n, h, t)
  {
  }

  lemma {:induction false} CastVote(n: nat, h: History, v: nat, t: int)
    requires RecordOk(n, h) && (v, t) in h.ballots
    ensures CastOk(n, h, v, t)
  {
  }

  /** Whoever gathers a majority wins a term that has no leader yet, and all its votes
      are first votes. */
  lemma {:induction false} WinsOnce(n: nat, h: History, id: nat, sv: Server, e: Election, voter: nat)
    requires RecordOk(n, h) && VoterOk(h, id, sv) && CountOk(n, h, e)
    requires id == e.args.candidateId && sv.role == Candidate && sv.currentTerm == e.args.term && id < n
    requires voter < n && voter != id && voter !in e.counted && VotedFor(h, voter, e.args.term, id)
    requires e.voteNum + 1 > n / 2
    ensures e.args.term !in h.elected
    ensures 2 * |EarlyVoters(n, h, e.args.term, id)| > n
  {
    var t := e.args.term;
    var q := e.counted + {voter, id};
    TwoMore(e.counted, voter, id);
    hide RecordOk;
    forall v | v in q
      ensures v < n && (v, t) in h.ballots && h.ballots[(v, t)].cand == id
    {
      assert VotedFor(h, v, t, id);
      assert !Leads(h, id, t);
    }
    if t in h.elected {
      WonTerm(n, h, t);
      var v := Quorums(n, q, EarlyVoters(n, h, t, h.elected[t]));
      assert false;
    }
    forall v | v in q
      ensures v in EarlyVoters(n, h, t, id)
    {
      CastVote(n, h, v, t);
    }
    SubsetSize(q, EarlyVoters(n, h, t, id));
  }

  lemma {:induction false} ElectAdds(n: nat, h: History, term: int, id: nat, log: Log)
    requires RecordOk(n, h) && term !in h.elected && log != [] && id < n
    requires 2 * |EarlyVoters(n, h, term, id)| > n
    ensures var h' := Elect(h, term, id, log);
            Adds(h, h', id) && RecordOk(n, h') && h'.elected == h.elected[term := id] && h'.ballots == h.ballots
  {
    var h' := Elect(h, term, id, log);
    assert EarlyVoters(n, h', term, id) == EarlyVoters(n, h, term, id);
    assert WinOk(n, h', term);
    RecordAdds(n, h, h', id);
  }

  lemma {:induction false} AnsweredOk(n: nat, h: History, id: nat, sv: Server, e: Election, voter: nat, reply: VoteReply)
    requires RecordOk(n, h) && VoterOk(h, id, sv) && CountOk(n, h, e) && sv.log != []
    requires id == e.args.candidateId && id < n && voter < n && voter != id && voter !in e.counted
    requires reply.voteGranted ==> VotedFor(h, voter, e.args.term, id)
    ensures var sv' := OnVoteReply(sv, e.args, reply, e.voteNum, n).0;
            var h' := if sv.role != Leader && sv'.role == Leader then Elect(h, sv.currentTerm, id, sv.log) else h;
            Adds(h, h', id) && RecordOk(n, h') && VoterOk(h', id, sv') && h'.ballots == h.ballots
  {
    var sv' := OnVoteReply(sv, e.args, reply, e.voteNum, n).0;
    AddsNothing(h, h, id);
    if sv.role == Candidate && sv'.role == Leader {
      WinsOnce(n, h, id, sv, e, voter);
      ElectAdds(n, h, sv.currentTerm, id, sv.log);
      hide RecordOk, Adds, CountOk, EarlyVoters, Elect;
    }
  }

  lemma {:induction false} HandleAnswerVotes(n: nat, s: System, a: Answer)
    requires VotesInv(n, s) && a in s.answers && a.election < |s.elections| && a.voter !in s.elections[a.election].counted
    requires 0 <= s.elections[a.election].args.candidateId < n
    requires forall id :: 0 <= id < n ==> s.servers[id].log != []
    ensures VotesInv(n, DoHandleAnswer(n, s, a))
  {
    var e, s' := s.elections[a.election], DoHandleAnswer(n, s, a);
    var id := e.args.candidateId;
    var sv := s.servers[id];
    assert VoterOk(s.hist, id, sv) && CountOk(n, s.hist, e) && AnswerOk(n, s, a);
    hide RecordOk, Adds, CountOk, FromLeader, VoterOk, OnVoteReply, Elect, VotedFor;
    AnswerRange(n, s, a);
    AnsweredOk(n, s.hist, id, sv, e, a.voter, a.reply);
    CountAdds(n, s.hist, s'.hist, id, e);
    CountedOne(n, s, a, s');
    hide AnswerOk, VotesInv;
    CountStep(n, s, s', id, a.election);
  }

  /** A step that changes one count. */
  lemma {:induction false} CountStep(n: nat, s: System, s': System, x: nat, k: nat)
    requires VotesInv(n, s) && x < n && |s'.servers| == n && k < |s.elections| == |s'.elections|
    requires forall j :: 0 <= j < n && j != x ==> s'.servers[j] == s.servers[j]
    requires Adds(s.hist, s'.hist, x) && RecordOk(n, s'.hist) && VoterOk(s'.hist, x, s'.servers[x])
    requires s'.elections == s.elections[k := s'.elections[k]] && s'.elections[k].args == s.elections[k].args
    requires CountOk(n, s'.hist, s'.elections[k]) && s'.answers == s.answers && s'.requests == s.requests
    ensures VotesInv(n, s')
  {
    hide RecordOk, Adds, CountOk, FromLeader, VoterOk, AnswerOk;
    VoteStepKeeps(n, s, s', x);
  }

  lemma {:induction false} AnswerRange(n: nat, s: System, a: Answer)
    requires AnswerOk(n, s, a)
    ensures a.election < |s.elections|
    ensures a.voter < n && a.voter != s.elections[a.election].args.candidateId
  {
  }

  lemma {:induction false} CountedOne(n: nat, s: System, a: Answer, s': System)
    requires |s.servers| == n && a.election < |s.elections| && a.voter !in s.elections[a.election].counted
    requires 0 <= s.elections[a.election].args.candidateId < n
    requires CountOk(n, s'.hist, s.elections[a.election]) && AnswerOk(n, s, a)
    requires s' == DoHandleAnswer(n, s, a) && Adds(s.hist, s'.hist, s.elections[a.election].args.candidateId)
    ensures CountOk(n, s'.hist, s'.elections[a.election])
  {
  }

  // ---- the other actions ------------------------------------------------------------------------

  /** Terms, votes and roles as before. */
  predicate SameVoting(sv: Server, sv': Server) {
    sv'.currentTerm == sv.currentTerm && sv'.voteFor == sv.voteFor && sv'.role == sv.role
  }

  predicate StepsDown(sv: Server, sv': Server) {
    sv'.currentTerm > sv.currentTerm && sv'.voteFor == -1 && sv'.role == Follower
  }

  predicate Follows(sv: Server, sv': Server, args: AppendArgs) {
    sv.currentTerm <= args.term == sv'.currentTerm && sv'.voteFor == args.leaderId && sv'.role == Follower
  }

  /** A step that records no vote and no leader. */
  lemma {:induction false} QuietStep(n: nat, s: System, s': System, x: nat)
    requires VotesInv(n, s) && x < n && |s'.servers| == n
    requires forall j :: 0 <= j < n && j != x ==> s'.servers[j] == s.servers[j]
    requires s'.hist.elected == s.hist.elected && s'.hist.ballots == s.hist.ballots
    requires s'.elections == s.elections && s'.answers == s.answers
    requires VoterOk(s.hist, x, s'.servers[x])
    requires forall r :: r in s'.requests && r !in s.requests ==> FromLeader(n, s.hist, r)
    ensures VotesInv(n, s')
  {
    AddsNothing(s.hist, s'.hist, x);
    SameRecord(n, s.hist, s'.hist);
    OtherVoter(n, s.hist, s'.hist, x + 1, x, s'.servers[x]);
    hide RecordOk, Adds, CountOk, AnswerOk, VoterOk;
    VoteStepKeeps(n, s, s', x);
  }

  lemma {:induction false} QuietVoter(n: nat, h: History, id: nat, sv: Server, sv': Server)
    requires VoterOk(h, id, sv) && (SameVoting(sv, sv') || StepsDown(sv, sv'))
    ensures VoterOk(h, id, sv')
  {
  }

  lemma {:induction false} FollowingVoter(n: nat, h: History, id: nat, sv: Server, sv': Server, args: AppendArgs)
    requires VoterOk(h, id, sv) && Follows(sv, sv', args) && Leads(h, args.leaderId, args.term)
    requires 0 <= args.leaderId && args.leaderId != id
    ensures VoterOk(h, id, sv')
  {
  }

  lemma {:induction false} AppendVoting(sv: Server, args: AppendArgs)
    requires OnAppend(sv, args).Some?
    ensures var sv' := OnAppend(sv, args).value.0; sv' == sv || Follows(sv, sv', args)
  {
    hide MergeAt;
  }

  lemma {:induction false} AckVoting(sv: Server, me: nat, from: nat, args: AppendArgs, reply: AppendReply, n: nat)
    requires OnAppendReply(sv, me, from, args, reply, n).Some?
    ensures var sv' := OnAppendReply(sv, me, from, args, reply, n).value; SameVoting(sv, sv') || StepsDown(sv, sv')
  {
    hide Holders;
  }

  lemma {:induction false} SendAppendVotes(n: nat, s: System, id: nat, to: nat)
    requires VotesInv(n, s) && id < n && to != id && MakeAppendArgs(s.servers[id], id, to).Some?
    requires s.servers[id].role == Leader
    ensures VotesInv(n, DoSendAppend(s, id, to))
  {
    var s' := DoSendAppend(s, id, to);
    assert VoterOk(s.hist, id, s.servers[id]);
    assert FromLeader(n, s.hist, Request(to, MakeAppendArgs(s.servers[id], id, to).value));
    hide MakeAppendArgs, FromLeader, VotesInv, VoterOk;
    QuietStep(n, s, s', id);
  }

  lemma {:induction false} HandleAppendVotes(n: nat, s: System, r: Request)
    requires VotesInv(n, s) && r in s.requests && r.to < n && OnAppend(s.servers[r.to], r.args).Some?
    ensures VotesInv(n, DoHandleAppend(s, r))
  {
    var sv, s' := s.servers[r.to], DoHandleAppend(s, r);
    assert VoterOk(s.hist, r.to, sv) && FromLeader(n, s.hist, r);
    AppendVoting(sv, r.args);
    if s'.servers[r.to] != sv {
      FollowingVoter(n, s.hist, r.to, sv, s'.servers[r.to], r.args);
    }
    hide OnAppend, FromLeader, VotesInv, VoterOk;
    QuietStep(n, s, s', r.to);
  }

  lemma {:induction false} HandleAckVotes(n: nat, s: System, a: Ack)
    requires VotesInv(n, s) && 0 <= a.args.leaderId < n
    requires OnAppendReply(s.servers[a.args.leaderId], a.args.leaderId, a.from, a.args, a.reply, n).Some?
    ensures VotesInv(n, DoHandleAck(n, s, a))
  {
    var id, s' := a.args.leaderId, DoHandleAck(n, s, a);
    assert VoterOk(s.hist, id, s.servers[id]);
    AckVoting(s.servers[id], id, a.from, a.args, a.reply, n);
    QuietVoter(n, s.hist, id, s.servers[id], s'.servers[id]);
    hide OnAppendReply, FromLeader, VotesInv, VoterOk;
    QuietStep(n, s, s', id);
  }

  lemma {:induction false} OtherVotes(n: nat, s: System, a: Action, s': System)
    requires VotesInv(n, s) && |s.applied| == n && Next(n, s, a, s') && (a.ReadState? || a.AppendCommand? || a.ApplyOne?)
    ensures VotesInv(n, s')
  {
    assert VoterOk(s.hist, a.id, s.servers[a.id]);
    QuietVoter(n, s.hist, a.id, s.servers[a.id], s'.servers[a.id]);
    hide FromLeader, VotesInv, VoterOk;
    QuietStep(n, s, s', a.id);
  }

  /** Every step that keeps E1 and E5 keeps the invariant. */
  lemma {:induction false} NextKeepsVotes(n: nat, s: System, a: Action, s': System)
    requires Sized(n, s) && VotesInv(n, s) && Next(n, s, a, s') && SenderLeads(s, a) && NoRestart(a)
    requires forall id :: 0 <= id < n ==> s.servers[id].log != []
    ensures VotesInv(n, s')
  {
    hide VotesInv;
    match a
    case StartElection(id) => StartElectionVotes(n, s, id);
    case AskVotes(id) => AskVotesVotes(n, s, id);
    case HandleVote(id, e) => HandleVoteVotes(n, s, id, e);
    case HandleAnswer(ans) => HandleAnswerVotes(n, s, ans);
    case SendAppend(id, to) => SendAppendVotes(n, s, id, to);
    case HandleAppend(r) => HandleAppendVotes(n, s, r);
    case HandleAck(ack) => HandleAckVotes(n, s, ack);
    case Restart(id) =>
    case _ => OtherVotes(n, s, a, s');
  }
}
