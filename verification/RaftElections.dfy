/** The election steps keep the invariant (raft.go:419-576, 805-818). */
module RaftElections {
  import opened RaftServer
  import opened RaftSystem
  import opened RaftInvariant
  import opened RaftFrame
  import RaftVotes

  /** Casting a first vote grows the history. */
  lemma {:induction false} VoteGrows(h: History, voter: nat, term: int, cand: int, log: Log, lastTerm: int, lastIndex: int)
    ensures var h' := Vote(h, voter, term, cand, log, lastTerm, lastIndex);
            Grows(h, h') && OnlyBy(h, h', voter)
  {
  }

  lemma {:induction false} VoteHistOk(n: nat, h: History, voter: nat, term: int, cand: int, log: Log, lastTerm: int, lastIndex: int)
    requires HistOk(n, h) && voter < n && 0 <= cand < n
    requires LogOk(h, log) && UpToDate(lastTerm, lastIndex, log)
    requires term !in h.elected ==> RetainsAll(h, voter, log, term, term - 1)
    ensures HistOk(n, Vote(h, voter, term, cand, log, lastTerm, lastIndex))
  {
    hide TermOk, LogOk, RetainsAll, UpToDate, Grows;
    var h' := Vote(h, voter, term, cand, log, lastTerm, lastIndex);
    VoteGrows(h, voter, term, cand, log, lastTerm, lastIndex);
    forall t | t in h'.elected
      ensures TermOk(n, h', t)
    {
      OldTermOk(n, h, h', t);
    }
    forall v, t | (v, t) in h'.ballots
      ensures BallotOk(n, h', v, t)
    {
      if (v, t) in h.ballots {
        OldBallotOk(n, h, h', v, t);
      } else {
        LogOkGrows(h, h', log);
        if term !in h.elected {
          RetainsAllGrows(n, h, h', voter, log, term, term - 1, term - 1);
        }
      }
    }
  }

  /** Entering a higher term as follower or candidate, with the log as it is. */
  lemma {:induction false} NewTermOk(n: nat, h: History, id: nat, sv: Server, sv': Server)
    requires HistOk(n, h) && ServerOk(n, h, id, sv)
    requires sv'.currentTerm > sv.currentTerm && sv'.log == sv.log && sv'.commitIndex == sv.commitIndex
    requires sv'.nextIndex == sv.nextIndex && sv'.matchIndex == sv.matchIndex
    ensures Shaped(n, h, sv') && Dated(h, id, sv'.currentTerm)
    ensures (id, sv'.currentTerm) !in h.ballots && (id, sv'.currentTerm) !in h.acked && !Leads(h, id, sv'.currentTerm)
    ensures RetainsAll(h, id, sv'.log, sv'.currentTerm + 1, sv'.currentTerm)
  {
    GrowsSame(h);
    CommitOkGrows(n, h, h, sv.commitIndex, sv.log, sv.log, sv.currentTerm, sv'.currentTerm);
    RetainsAllGrows(n, h, h, id, sv.log, sv.currentTerm + 1, sv.currentTerm, sv'.currentTerm);
  }

  // ---- startElection --------------------------------------------------------------------

  lemma {:induction false} Basics(n: nat, h: History, id: nat, sv: Server)
    requires HistOk(n, h) && ServerOk(n, h, id, sv)
    ensures h.elected.Keys == h.leaderLog.Keys
    ensures LogOk(h, sv.log) && |sv.log| > 0 && |sv.nextIndex| == n && |sv.matchIndex| == n
  {
  }

  lemma {:induction false} ServerTerms(n: nat, h: History, id: nat, sv: Server)
    requires ServerOk(n, h, id, sv)
    ensures TermsBelow(sv.log, sv.currentTerm) && Dated(h, id, sv.currentTerm)
    ensures RetainsAll(h, id, sv.log, sv.currentTerm + 1, sv.currentTerm)
  {
  }

  lemma {:induction false} CampaignFacts(n: nat, h: History, id: nat, sv: Server)
    requires HistOk(n, h) && ServerOk(n, h, id, sv) && id < n && sv.role != Leader
    ensures var h' := Vote(h, id, sv.currentTerm + 1, id, sv.log, LastTerm(sv.log), |sv.log| - 1);
            && Grows(h, h') && OnlyBy(h, h', id) && HistOk(n, h')
            && ServerOk(n, h', id, Campaign(sv, id)) && ClaimsKept(sv, Campaign(sv, id))
  {
    hide HistOk, ServerOk, Grows, OnlyBy, LogOk, RetainsAll, Shaped, Dated;
    var sv', t := Campaign(sv, id), sv.currentTerm + 1;
    var h' := Vote(h, id, t, id, sv.log, LastTerm(sv.log), |sv.log| - 1);
    NewTermOk(n, h, id, sv, sv');
    Basics(n, h, id, sv);
    VoteGrows(h, id, t, id, sv.log, LastTerm(sv.log), |sv.log| - 1);
    if t !in h.elected {
      RetainsLower(h, id, sv.log, t);
    }
    VoteHistOk(n, h, id, t, id, sv.log, LastTerm(sv.log), |sv.log| - 1);
    CandidateOk(n, h, h', id, sv, sv');
  }

  lemma {:induction false} CampaignClaims(n: nat, h: History, servers: seq<Server>, id: nat, sv: Server)
    requires |servers| == n && id < n && servers[id] == Campaign(sv, id) && sv.role != Leader
    ensures var h' := Vote(h, id, sv.currentTerm + 1, id, sv.log, LastTerm(sv.log), |sv.log| - 1);
            forall v, t :: (v, t) in h'.ballots && (v, t) !in h.ballots ==> BallotClaim(n, h', servers, v, t)
  {
  }

  lemma {:induction false} StartElectionKeeps(n: nat, s: System, id: nat)
    requires Inv(n, s) && id < n
    ensures Inv(n, DoStartElection(s, id))
  {
    hide HistOk, Grows, OnlyBy, ServerOk, ElectionOk, AnswerOk, RequestOk, AckOk, AppliedOk, BallotClaim, Vote, ClaimsKept;
    var sv, s' := s.servers[id], DoStartElection(s, id);
    if sv.role == Leader {
      assert s'.servers == s.servers;
      assert s' == s;
    } else {
      assert ServerOk(n, s.hist, id, sv) && AppliedOk(n, s.hist, sv, s.applied[id]);
      CampaignFacts(n, s.hist, id, sv);
      AppliedOkGrows(n, s.hist, s'.hist, sv, s.applied[id]);
      SameApplied(n, s'.hist, sv, s'.servers[id], s.applied[id]);
      CampaignClaims(n, s.hist, s'.servers, id, sv);
      assert StepBy(n, s, s', id);
      StepKeepsInv(n, s, s', id);
    }
  }

  /** With no leader of term t, the bound t says no more than t - 1. */
  lemma {:induction false} RetainsLower(h: History, voter: nat, log: Log, t: int)
    requires h.elected.Keys == h.leaderLog.Keys && t !in h.elected
    requires RetainsAll(h, voter, log, t + 1, t)
    ensures RetainsAll(h, voter, log, t, t - 1)
  {
    var b := t - 1;
    forall term, i: nat | (voter, term) in h.acked && term < t && i <= h.acked[(voter, term)]
      ensures RetainsAt(h, log, term, i, b)
    {
      assert RetainsAt(h, log, term, i, t);
      if LaterHave(h, term, i, b) {
        assert LaterHave(h, term, i, t);
      }
    }
  }

  lemma {:induction false} CandidateOk(n: nat, h: History, h': History, id: nat, sv: Server, sv': Server)
    requires HistOk(n, h) && HistOk(n, h') && ServerOk(n, h, id, sv) && sv.role != Leader
    requires sv' == Campaign(sv, id)
    requires h' == Vote(h, id, sv'.currentTerm, id, sv.log, LastTerm(sv.log), |sv.log| - 1)
    requires Grows(h, h')
    ensures ServerOk(n, h', id, sv')
  {
    hide HistOk, LogOk, RetainsAll, Grows;
    NewTermOk(n, h, id, sv, sv');
    LogOkGrows(h, h', sv.log);
    CommitOkGrows(n, h, h', sv.commitIndex, sv.log, sv.log, sv'.currentTerm, sv'.currentTerm);
    RetainsAllGrows(n, h, h', id, sv.log, sv'.currentTerm + 1, sv'.currentTerm, sv'.currentTerm);
  }

  // ---- RequestVote: building the arguments --------------------------------------------------

  lemma {:induction false} AskVotesKeeps(n: nat, s: System, id: nat)
    requires Inv(n, s) && id < n
    ensures Inv(n, DoAskVotes(s, id))
  {
    hide HistOk, Grows, OnlyBy, ServerOk, RequestOk, AckOk, AppliedOk, BallotClaim, VotedFor;
    var s' := DoAskVotes(s, id);
    GrowsSame(s.hist);
    assert ServerOk(n, s.hist, id, s.servers[id]);
    assert AppliedOk(n, s.hist, s.servers[id], s.applied[id]);
    assert ElectionOk(n, s'.hist, s'.servers, s'.elections[|s.elections|]);
    assert StepBy(n, s, s', id);
    StepKeepsInv(n, s, s', id);
  }

  // ---- RequestVoteReply -----------------------------------------------------------------------

  lemma {:induction false} HandleVoteFacts(n: nat, s: System, id: nat, e: nat)
    requires Inv(n, s) && id < n && e < |s.elections| && id != s.elections[e].args.candidateId
    ensures var s', args := DoHandleVote(s, id, e), s.elections[e].args;
            && Grows(s.hist, s'.hist) && OnlyBy(s.hist, s'.hist, id) && HistOk(n, s'.hist)
            && ServerOk(n, s'.hist, id, s'.servers[id]) && ClaimsKept(s.servers[id], s'.servers[id])
            && AppliedOk(n, s'.hist, s'.servers[id], s'.applied[id])
            && (OnVote(s.servers[id], args).1.voteGranted ==> VotedFor(s'.hist, id, args.term, args.candidateId))
  {
    var sv, s', args := s.servers[id], DoHandleVote(s, id, e), s.elections[e].args;
    var sv', h, h' := s'.servers[id], s.hist, s'.hist;
    assert ServerOk(n, h, id, sv) && ElectionOk(n, h, s.servers, s.elections[e]);
    assert AppliedOk(n, h, sv, s.applied[id]);
    assert 0 <= args.candidateId < n;
    hide ServerOk, ElectionOk, AppliedOk, HistOk, Grows, OnlyBy, VotedFor, Vote, UpToDate, Inv;
    AdvanceOk(n, h, id, sv, args.term);
    if OnVote(sv, args).1.voteGranted {
      GrantFacts(n, h, id, sv, args);
      AppliedOkGrows(n, h, h', sv, s.applied[id]);
      SameApplied(n, h', sv, sv', s.applied[id]);
    } else {
      GrowsSame(h);
      SameApplied(n, h, sv, sv', s.applied[id]);
    }
  }

  lemma {:induction false} SameApplied(n: nat, h: History, sv: Server, sv': Server, ap: seq<Command>)
    requires AppliedOk(n, h, sv, ap) && sv'.lastApplied == sv.lastApplied
    ensures AppliedOk(n, h, sv', ap)
  {
  }

  lemma {:induction false} GrantFacts(n: nat, h: History, id: nat, sv: Server, args: VoteArgs)
    requires HistOk(n, h) && ServerOk(n, h, id, sv) && id < n && 0 <= args.candidateId < n && id != args.candidateId
    requires OnVote(sv, args).1.voteGranted
    ensures var h' := Vote(h, id, args.term, args.candidateId, sv.log, args.lastLogTerm, args.lastLogIndex);
            && Grows(h, h') && OnlyBy(h, h', id) && HistOk(n, h')
            && ServerOk(n, h', id, OnVote(sv, args).0)
            && VotedFor(h', id, args.term, args.candidateId)
  {
    hide HistOk, ServerOk, Grows, OnlyBy, LogOk, RetainsAll, VotedFor;
    var t, h' := RaftServer.Advance(sv, args.term), Vote(h, id, args.term, args.candidateId, sv.log, args.lastLogTerm, args.lastLogIndex);
    AdvanceOk(n, h, id, sv, args.term);
    Basics(n, h, id, sv);
    ServerTerms(n, h, id, t);
    VoteGrows(h, id, args.term, args.candidateId, sv.log, args.lastLogTerm, args.lastLogIndex);
    if args.term !in h.elected {
      RetainsLower(h, id, t.log, args.term);
    }
    VoteHistOk(n, h, id, args.term, args.candidateId, sv.log, args.lastLogTerm, args.lastLogIndex);
    GrantingOk(n, h, h', id, t, OnVote(sv, args).0, args);
  }

  lemma {:induction false} HandleVoteKeeps(n: nat, s: System, id: nat, e: nat)
    requires Inv(n, s) && id < n && e < |s.elections| && id != s.elections[e].args.candidateId
    ensures Inv(n, DoHandleVote(s, id, e))
  {
    hide HistOk, Grows, OnlyBy, ServerOk, RequestOk, AckOk, AppliedOk, OnVote, VotedFor, ClaimsKept;
    var s' := DoHandleVote(s, id, e);
    assert ElectionOk(n, s.hist, s.servers, s.elections[e]);
    HandleVoteFacts(n, s, id, e);
    hide ElectionOk;
    assert StepBy(n, s, s', id);
    StepKeepsInv(n, s, s', id);
  }

  lemma {:induction false} AdvanceOk(n: nat, h: History, id: nat, sv: Server, term: int)
    requires HistOk(n, h) && ServerOk(n, h, id, sv)
    ensures ServerOk(n, h, id, RaftServer.Advance(sv, term))
    ensures ClaimsKept(sv, RaftServer.Advance(sv, term))
  {
    if term > sv.currentTerm {
      NewTermOk(n, h, id, sv, RaftServer.Advance(sv, term));
    }
  }

  /** The voter: t is its state after adopting the term. */
  lemma {:induction false} GrantingOk(n: nat, h: History, h': History, id: nat, t: Server, sv': Server, args: VoteArgs)
    requires HistOk(n, h) && HistOk(n, h') && ServerOk(n, h, id, t) && t.currentTerm == args.term
    requires t.voteFor == -1 || t.voteFor == args.candidateId
    requires 0 <= args.candidateId && args.candidateId != id
    requires sv' == t.(voteFor := args.candidateId)
    requires h' == Vote(h, id, args.term, args.candidateId, t.log, args.lastLogTerm, args.lastLogIndex)
    requires Grows(h, h')
    ensures ServerOk(n, h', id, sv')
    ensures VotedFor(h', id, args.term, args.candidateId)
  {
    hide HistOk, LogOk, RetainsAll, Grows;
    LogOkGrows(h, h', t.log);
    CommitOkGrows(n, h, h', t.commitIndex, t.log, t.log, t.currentTerm, t.currentTerm);
    RetainsAllGrows(n, h, h', id, t.log, t.currentTerm + 1, t.currentTerm, t.currentTerm);
  }

  // ---- counting votes ---------------------------------------------------------------------------

  /** Whoever gathers a majority wins a term that has no leader yet, and all its
      votes are first votes. */
  lemma {:induction false} ElectionSafety(n: nat, h: History, id: nat, sv: Server, e: Election, servers: seq<Server>, voter: nat)
    requires HistOk(n, h) && |servers| == n && ServerOk(n, h, id, sv) && ElectionOk(n, h, servers, e)
    requires id == e.args.candidateId && sv.role == Candidate && sv.currentTerm == e.args.term && id < n
    requires voter < n && voter != id && voter !in e.counted && VotedFor(h, voter, e.args.term, id)
    requires e.voteNum + 1 > n / 2
    ensures e.args.term !in h.elected
    ensures 2 * |EarlyVoters(n, h, e.args.term, id)| > n
  {
    hide LogOk, RetainsAll, TermsBelow, TermsSorted, UpToDate, Shaped, ClaimOk;
    forall t | t in h.elected
      ensures RaftVotes.WinOk(n, h, t)
    {
      assert TermOk(n, h, t);
    }
    forall v, t | (v, t) in h.ballots
      ensures RaftVotes.CastOk(n, h, v, t)
    {
      assert BallotOk(n, h, v, t);
    }
    RaftVotes.WinsOnce(n, h, id, sv, e, voter);
  }

  lemma {:induction false} ElectGrows(h: History, term: int, id: nat, log: Log)
    requires term !in h.elected && h.elected.Keys == h.electLog.Keys == h.leaderLog.Keys && log != []
    requires (id, term) !in h.acked
    ensures var h' := Elect(h, term, id, log);
            && Grows(h, h') && OnlyBy(h, h', id) && h'.elected.Keys == h'.electLog.Keys == h'.leaderLog.Keys
            && h'.elected == h.elected[term := id] && h'.electLog == h.electLog[term := log]
            && h'.leaderLog == h.leaderLog[term := log] && h'.ballots == h.ballots && h'.acked == h.acked[(id, term) := |log| - 1]
  {
  }

  lemma {:induction false} EarlyBallot(n: nat, h: History, v: nat, t: int)
    requires HistOk(n, h) && (v, t) in h.ballots && t !in h.elected
    ensures EarlyVote(h, v, t, h.ballots[(v, t)].cand)
  {
    assert BallotOk(n, h, v, t);
  }

  /** The claims on which the early votes for the winner were given. */
  ghost predicate ClaimsMatch(h: History, term: int, id: nat, log: Log) {
    forall v :: EarlyVote(h, v, term, id) ==>
      h.ballots[(v, term)].lastTerm == LastTerm(log) && h.ballots[(v, term)].lastIndex == |log| - 1
  }

  lemma {:induction false} ElectHistOk(n: nat, h: History, term: int, id: nat, log: Log)
    requires HistOk(n, h) && term !in h.elected && term >= 1 && id < n
    requires LogOk(h, log) && TermsBelow(log, term) && (id, term) !in h.acked
    requires 2 * |EarlyVoters(n, h, term, id)| > n && ClaimsMatch(h, term, id, log)
    requires forall t :: (id, t) in h.ballots ==> t <= term
    ensures HistOk(n, Elect(h, term, id, log))
  {
    hide TermOk, BallotOk, Grows, OnlyBy, LogOk, TermsBelow, Elect, EarlyVoters;
    var h' := Elect(h, term, id, log);
    NotEmpty(h, log);
    ElectGrows(h, term, id, log);
    forall t | t in h'.elected
      ensures TermOk(n, h', t)
    {
      if t == term {
        NewTermHistOk(n, h, h', term, id, log);
      } else {
        OldTermOk(n, h, h', t);
      }
    }
    forall v, t | (v, t) in h'.ballots
      ensures BallotOk(n, h', v, t)
    {
      if t == term {
        EarlyBallot(n, h, v, t);
      }
      OldBallotOk(n, h, h', v, t);
    }
    forall v, t | (v, t) in h'.acked
      ensures AckedOk(h', v, t)
    {
      if (v, t) in h.acked {
        assert AckedOk(h, v, t);
      }
    }
  }

  /** A log with terms up to a term without leader has smaller terms only. */
  lemma {:induction false} TermsFree(h: History, log: Log, term: int)
    requires LogOk(h, log) && TermsBelow(log, term) && term !in h.leaderLog && term >= 1
    ensures TermsBelow(log, term - 1)
  {
    forall i | 0 <= i < |log|
      ensures log[i].term <= term - 1
    {
      if i > 0 {
        assert EntryOk(h, log, i);
      }
    }
  }

  lemma {:induction false} NewTermHistOk(n: nat, h: History, h': History, term: int, id: nat, log: Log)
    requires HistOk(n, h) && term !in h.elected && term >= 1 && id < n
    requires LogOk(h, log) && TermsBelow(log, term)
    requires 2 * |EarlyVoters(n, h, term, id)| > n
    requires h' == Elect(h, term, id, log) && Grows(h, h')
    ensures TermOk(n, h', term)
  {
    LogOkGrows(h, h', log);
    SortedLog(n, h, log);
    TermsFree(h, log, term);
    hide LogOk, Grows, HistOk, TermsBelow, TermsSorted;
    assert EarlyVoters(n, h', term, id) == EarlyVoters(n, h, term, id);
  }

  /** The winner's own record: it has confirmed its whole log. */
  lemma {:induction false} WinnerOk(n: nat, h: History, h': History, id: nat, sv: Server, sv': Server)
    requires HistOk(n, h) && HistOk(n, h') && ServerOk(n, h, id, sv) && sv.role == Candidate && id < n
    requires sv.currentTerm !in h.elected && (id, sv.currentTerm) !in h.acked && sv.matchIndex == Fill(n, 0)
    requires h' == Elect(h, sv.currentTerm, id, sv.log) && Grows(h, h')
    requires sv' == sv.(role := Leader, nextIndex := Fill(n, |sv.log|))
    ensures ServerOk(n, h', id, sv')
  {
    hide HistOk, Grows, LogOk, RetainsAll, CommitOk, TermsBelow;
    LogOkGrows(h, h', sv.log);
    CommitRange(n, h, sv.commitIndex, sv.log, sv.currentTerm);
    CommitOkGrows(n, h, h', sv.commitIndex, sv.log, sv.log, sv.currentTerm, sv.currentTerm);
    NotEmpty(h, sv.log);
    WinnerRetains(n, h, h', id, sv);
    assert RoleOk(n, h', id, sv');
    assert Dated(h', id, sv.currentTerm) && VoteOk(h', id, sv');
  }

  lemma {:induction false} CommitRange(n: nat, h: History, k: int, log: Log, bound: int)
    requires CommitOk(n, h, k, log, bound)
    ensures 0 <= k < |log|
  {
  }

  lemma {:induction false} WinnerRetains(n: nat, h: History, h': History, id: nat, sv: Server)
    requires HistOk(n, h) && Grows(h, h') && |sv.log| > 0
    requires RetainsAll(h, id, sv.log, sv.currentTerm + 1, sv.currentTerm)
    requires sv.currentTerm !in h.elected && (id, sv.currentTerm) !in h.acked
    requires h' == Elect(h, sv.currentTerm, id, sv.log)
    ensures RetainsAll(h', id, sv.log, sv.currentTerm + 1, sv.currentTerm)
  {
    var t := sv.currentTerm;
    RetainsDrop(h, id, sv.log, t);
    RetainsAllGrows(n, h, h', id, sv.log, t, t, t);
    forall i: nat | i <= h'.acked[(id, t)]
      ensures RetainsAt(h', sv.log, t, i, t)
    {
    }
    RetainsJoin(h', id, sv.log, t);
  }

  lemma {:induction false} RetainsDrop(h: History, id: nat, log: Log, t: int)
    requires RetainsAll(h, id, log, t + 1, t)
    ensures RetainsAll(h, id, log, t, t)
  {
  }

  lemma {:induction false} RetainsJoin(h: History, id: nat, log: Log, t: int)
    requires RetainsAll(h, id, log, t, t)
    requires (id, t) in h.acked ==> forall i: nat :: i <= h.acked[(id, t)] ==> RetainsAt(h, log, t, i, t)
    ensures RetainsAll(h, id, log, t + 1, t)
  {
  }

  lemma {:induction false} WinFacts(n: nat, h: History, id: nat, sv: Server, sv': Server)
    requires HistOk(n, h) && ServerOk(n, h, id, sv) && sv.role == Candidate && id < n
    requires sv.currentTerm !in h.elected && sv.matchIndex == Fill(n, 0)
    requires 2 * |EarlyVoters(n, h, sv.currentTerm, id)| > n && ClaimsMatch(h, sv.currentTerm, id, sv.log)
    requires sv' == sv.(role := Leader, nextIndex := Fill(n, |sv.log|))
    ensures var h' := Elect(h, sv.currentTerm, id, sv.log);
            Grows(h, h') && OnlyBy(h, h', id) && HistOk(n, h') && ServerOk(n, h', id, sv')
  {
    var t := sv.currentTerm;
    assert (id, t) !in h.acked by {
      assert (id, t) in h.acked ==> AckedOk(h, id, t);
    }
    ElectGrows(h, t, id, sv.log);
    ElectHistOk(n, h, t, id, sv.log);
    WinnerOk(n, h, Elect(h, t, id, sv.log), id, sv, sv');
  }

  lemma {:induction false} StepDownOk(n: nat, h: History, id: nat, sv: Server, term: int)
    requires HistOk(n, h) && ServerOk(n, h, id, sv) && term > sv.currentTerm
    ensures var sv' := sv.(currentTerm := term, voteFor := -1, role := Follower);
            ServerOk(n, h, id, sv') && ClaimsKept(sv, sv')
  {
    NewTermOk(n, h, id, sv, sv.(currentTerm := term, voteFor := -1, role := Follower));
  }

  lemma {:induction false} WinnerClaims(n: nat, s: System, id: nat)
    requires Inv(n, s) && id < n && s.servers[id].role == Candidate
    ensures ClaimsMatch(s.hist, s.servers[id].currentTerm, id, s.servers[id].log)
  {
    var t := s.servers[id].currentTerm;
    forall v | EarlyVote(s.hist, v, t, id)
      ensures s.hist.ballots[(v, t)].lastTerm == LastTerm(s.servers[id].log)
      ensures s.hist.ballots[(v, t)].lastIndex == |s.servers[id].log| - 1
    {
      assert BallotClaim(n, s.hist, s.servers, v, t);
    }
  }

  /** The candidate after a reply to its request for a vote. */
  lemma {:induction false} AnswerFacts(n: nat, h: History, servers: seq<Server>, id: nat, e: Election, voter: nat, reply: VoteReply)
    requires HistOk(n, h) && |servers| == n && id < n && id == e.args.candidateId
    requires ServerOk(n, h, id, servers[id]) && ElectionOk(n, h, servers, e)
    requires voter < n && voter != id && voter !in e.counted
    requires reply.voteGranted ==> VotedFor(h, voter, e.args.term, id)
    requires servers[id].role == Candidate ==> ClaimsMatch(h, servers[id].currentTerm, id, servers[id].log)
    requires var sv' := OnVoteReply(servers[id], e.args, reply, e.voteNum, n).0;
             servers[id].role != Leader && sv'.role == Leader ==> servers[id].matchIndex == Fill(n, 0)
    ensures var sv, sv' := servers[id], OnVoteReply(servers[id], e.args, reply, e.voteNum, n).0;
            var h' := if sv.role != Leader && sv'.role == Leader then Elect(h, sv.currentTerm, id, sv.log) else h;
            && Grows(h, h') && OnlyBy(h, h', id) && HistOk(n, h') && h'.ballots == h.ballots
            && ServerOk(n, h', id, sv') && ClaimsKept(sv, sv') && sv'.lastApplied == sv.lastApplied
  {
    hide HistOk, ServerOk, ElectionOk, Grows, OnlyBy, ClaimsMatch, VotedFor;
    var sv := servers[id];
    var sv' := OnVoteReply(sv, e.args, reply, e.voteNum, n).0;
    Basics(n, h, id, sv);
    GrowsSame(h);
    if sv.role == Candidate && sv'.role == Leader {
      ElectionSafety(n, h, id, sv, e, servers, voter);
      WinFacts(n, h, id, sv, sv');
    } else if sv'.currentTerm > sv.currentTerm {
      StepDownOk(n, h, id, sv, reply.term);
    } else {
      assert sv' == sv;
    }
  }

  lemma {:induction false} CountedOk(n: nat, s: System, a: Answer, s': System)
    requires |s.servers| == n && |s'.servers| == n && a.election < |s.elections| && a.voter !in s.elections[a.election].counted
    requires 0 <= s.elections[a.election].args.candidateId < n
    requires ElectionOk(n, s.hist, s.servers, s.elections[a.election]) && AnswerOk(n, s, a)
    requires s' == DoHandleAnswer(n, s, a) && Grows(s.hist, s'.hist)
    requires var id := s.elections[a.election].args.candidateId; ClaimsKept(s.servers[id], s'.servers[id])
    ensures ElectionOk(n, s'.hist, s'.servers, s'.elections[a.election])
  {
    var e := s.elections[a.election];
    var id := e.args.candidateId;
    ClaimKept(s.servers[id], s'.servers[id], e.args.term, e.args.lastLogTerm, e.args.lastLogIndex);
    forall v | v in s'.elections[a.election].counted
      ensures v < n && v != id && VotedFor(s'.hist, v, e.args.term, id)
    {
      VotedForGrows(s.hist, s'.hist, v, e.args.term, id);
    }
  }

  lemma {:induction false} HandleAnswerKeeps(n: nat, s: System, a: Answer)
    requires Inv(n, s) && a in s.answers && a.election < |s.elections| && a.voter !in s.elections[a.election].counted
    requires 0 <= s.elections[a.election].args.candidateId < n
    requires MatchFresh(n, s, HandleAnswer(a))
    ensures Inv(n, DoHandleAnswer(n, s, a))
  {
    hide HistOk, Grows, OnlyBy, ServerOk, RequestOk, AckOk, AppliedOk, ElectionOk, BallotClaim;
    var e, s' := s.elections[a.election], DoHandleAnswer(n, s, a);
    var id := e.args.candidateId;
    var sv, sv', h := s.servers[id], s'.servers[id], s.hist;
    assert ServerOk(n, h, id, sv) && AppliedOk(n, h, sv, s.applied[id]);
    assert ElectionOk(n, h, s.servers, e) && AnswerOk(n, s, a);
    if sv.role == Candidate {
      WinnerClaims(n, s, id);
    }
    AnswerFacts(n, h, s.servers, id, e, a.voter, a.reply);
    CountedOk(n, s, a, s');
    AppliedOkGrows(n, h, s'.hist, sv, s.applied[id]);
    SameApplied(n, s'.hist, sv, sv', s.applied[id]);
    hide OnVoteReply;
    assert StepBy(n, s, s', id);
    StepKeepsInv(n, s, s', id);
  }
}
