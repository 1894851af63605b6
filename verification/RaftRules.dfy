/** When the handlers of src/raft/raft.go act: votes, requests, replies, commitment and
    application, each as an if-and-only-if on what the handler is given. */
module RaftRules {
  import opened Collections
  import opened RaftServer
  import opened RaftSystem
  import opened RaftInvariant
  import opened RaftReplication

  // ---- votes (raft.go:538-576) ------------------------------------------------------------

  /** The pair (last term, last index) is at least the other one, terms first. */
  predicate LexAtLeast(term: int, index: int, otherTerm: int, otherIndex: int) {
    term > otherTerm || (term == otherTerm && index >= otherIndex)
  }

  /** A vote is granted exactly if the request is not older, the voter has no entries or a
      log that is lexicographically no later, and the voter has not voted for another
      candidate in the term. */
  lemma {:induction false} VoteRule(sv: Server, args: VoteArgs)
    requires |sv.log| > 0
    ensures var (sv', reply) := OnVote(sv, args);
            && (reply.voteGranted <==>
                  && args.term >= sv.currentTerm
                  && (|sv.log| == 1 || LexAtLeast(args.lastLogTerm, args.lastLogIndex, sv.log[|sv.log| - 1].term, |sv.log| - 1))
                  && (args.term > sv.currentTerm || sv.voteFor == -1 || sv.voteFor == args.candidateId))
            && reply.term == sv'.currentTerm == (if args.term > sv.currentTerm then args.term else sv.currentTerm)
            && (reply.voteGranted ==> sv'.voteFor == args.candidateId)
            && (!reply.voteGranted ==> sv'.voteFor == if args.term > sv.currentTerm then -1 else sv.voteFor)
            && sv'.role == (if args.term > sv.currentTerm then Follower else sv.role)
            && sv' == sv.(currentTerm := sv'.currentTerm, voteFor := sv'.voteFor, role := sv'.role)
  {
  }

  /** So a candidate's own request is granted by comparing the two logs. */
  lemma {:induction false} CandidateRule(voter: Server, cand: Server, me: nat)
    requires |voter.log| > 1 && |cand.log| > 0
    ensures OnVote(voter, MakeVoteArgs(cand, me)).1.voteGranted <==>
              && cand.currentTerm >= voter.currentTerm
              && LexAtLeast(LastTerm(cand.log), |cand.log| - 1, voter.log[|voter.log| - 1].term, |voter.log| - 1)
              && (cand.currentTerm > voter.currentTerm || voter.voteFor == -1 || voter.voteFor == me)
  {
    VoteRule(voter, MakeVoteArgs(cand, me));
  }

  /** A candidate whose log continues the voter's is up to date for it. */
  lemma {:induction false} LongerIsUpToDate(log: Log, cand: Log)
    requires 0 < |log| && log <= cand && TermsSorted(cand)
    ensures UpToDate(LastTerm(cand), |cand| - 1, log)
  {
    if |log| > 1 {
      assert log[|log| - 1] == cand[|log| - 1];
    }
  }

  /** Of two logs at least one is up to date for the other, and both are only if they end
      alike. */
  lemma {:induction false} UpToDateIsTotal(a: Log, b: Log)
    requires |a| > 0 && |b| > 0
    requires forall i :: 0 <= i < |a| ==> a[i].term >= 0
    requires forall i :: 0 <= i < |b| ==> b[i].term >= 0
    ensures UpToDate(LastTerm(a), |a| - 1, b) || UpToDate(LastTerm(b), |b| - 1, a)
    ensures UpToDate(LastTerm(a), |a| - 1, b) && UpToDate(LastTerm(b), |b| - 1, a) <==>
            |a| == |b| && LastTerm(a) == LastTerm(b)
  {
  }

  /** Being up to date is passed on. */
  lemma {:induction false} UpToDateIsTransitive(a: Log, b: Log, c: Log)
    requires |a| > 0 && |b| > 0 && |c| > 0
    requires forall i :: 0 <= i < |b| ==> b[i].term >= 0
    requires forall i :: 0 <= i < |c| ==> c[i].term >= 0
    requires UpToDate(LastTerm(a), |a| - 1, b) && UpToDate(LastTerm(b), |b| - 1, c)
    ensures UpToDate(LastTerm(a), |a| - 1, c)
  {
  }

  // ---- candidates (raft.go:473-509, 805-817) --------------------------------------------------

  /** Everyone but a leader campaigns, in the next term and for itself. */
  lemma {:induction false} CampaignRule(sv: Server, me: nat)
    ensures var sv' := Campaign(sv, me);
            && (sv' == sv <==> sv.role == Leader)
            && (sv.role != Leader ==> sv'.role == Candidate && sv'.currentTerm == sv.currentTerm + 1 && sv'.voteFor == me)
            && sv'.log == sv.log && sv'.commitIndex == sv.commitIndex && sv'.lastApplied == sv.lastApplied
            && sv'.nextIndex == sv.nextIndex && sv'.matchIndex == sv.matchIndex
  {
  }

  /** A reply counts exactly for a candidate still in the term of its request. A granted
      vote makes it leader exactly if the votes are a majority; a refusal makes it step down
      exactly if it comes from a higher term. */
  lemma {:induction false} VoteReplyRule(sv: Server, args: VoteArgs, reply: VoteReply, voteNum: nat, n: nat)
    ensures var (sv', voteNum') := OnVoteReply(sv, args, reply, voteNum, n);
            var counts := sv.role == Candidate && sv.currentTerm == args.term;
            && (voteNum' == voteNum + 1 <==> counts && reply.voteGranted) && (voteNum' == voteNum || voteNum' == voteNum + 1)
            && (sv'.role == Leader <==> sv.role == Leader || (counts && reply.voteGranted && 2 * (voteNum + 1) > n))
            && (sv'.currentTerm != sv.currentTerm <==> counts && !reply.voteGranted && reply.term > sv.currentTerm)
            && (sv'.currentTerm != sv.currentTerm ==> sv' == sv.(currentTerm := reply.term, voteFor := -1, role := Follower))
            && (sv.role != Leader && sv'.role == Leader ==>
                  && sv' == sv.(role := Leader, nextIndex := sv'.nextIndex) && |sv'.nextIndex| == |sv.nextIndex|
                  && forall j :: 0 <= j < |sv'.nextIndex| ==> sv'.nextIndex[j] == |sv.log|)
            && (sv'.currentTerm == sv.currentTerm && sv'.role == sv.role ==> sv' == sv)
  {
  }

  // ---- sending (raft.go:201-220) ------------------------------------------------------------------

  /** A request carries the log from nextIndex on, whether or not that is empty, the entry
      before it as far as there is one, and the sender's term and commit index. */
  lemma {:induction false} SendRule(sv: Server, me: nat, to: nat)
    requires to < |sv.nextIndex| && 0 <= sv.nextIndex[to] <= |sv.log| && |sv.log| > 0
    ensures MakeAppendArgs(sv, me, to).Some?
    ensures var args, next := MakeAppendArgs(sv, me, to).value, sv.nextIndex[to];
            && args.entries == sv.log[next..]
            && args.prevLogIndex == (if next == 0 then 0 else next - 1)
            && (next > 1 || args.entries == [] ==> HasEntry(sv.log, args.prevLogIndex, args.prevLogTerm))
            && args.term == sv.currentTerm && args.leaderId == me && args.leaderCommit == sv.commitIndex
  {
  }

  // ---- requests (raft.go:266-388) ---------------------------------------------------------------

  /** The log has an entry of the term at the index. */
  predicate HasEntry(log: Log, index: int, term: int) {
    0 <= index < |log| && log[index].term == term
  }

  /** A request of an older term is refused and changes nothing. Any other makes the
      receiver a follower of its sender, and is accepted exactly if the log has the entry
      before the ones sent, or entries are sent from the very beginning. */
  lemma {:induction false} AppendRule(sv: Server, args: AppendArgs)
    requires |sv.log| > 0
    ensures args.term < sv.currentTerm ==> OnAppend(sv, args) == Some((sv, AppendReply(sv.currentTerm, false)))
    ensures OnAppend(sv, args).None? <==> args.term >= sv.currentTerm && args.prevLogIndex < 0
    ensures args.term >= sv.currentTerm && args.prevLogIndex >= 0 ==>
              var (sv', reply) := OnAppend(sv, args).value;
              && (reply.success <==>
                    HasEntry(sv.log, args.prevLogIndex, args.prevLogTerm) || (args.entries != [] && args.prevLogIndex == 0))
              && reply.term == sv'.currentTerm == args.term && sv'.voteFor == args.leaderId && sv'.role == Follower
              && sv'.lastApplied == sv.lastApplied && sv'.nextIndex == sv.nextIndex && sv'.matchIndex == sv.matchIndex
              && (!reply.success ==> sv'.log == sv.log && sv'.commitIndex == sv.commitIndex)
  {
    hide MergeAt;
  }

  /** After an accepted request: a heartbeat raises the commit index to what the sender has
      committed, as far as the log goes; entries are merged and set it. */
  lemma {:induction false} AcceptedRule(sv: Server, args: AppendArgs)
    requires |sv.log| > 0 && args.term >= sv.currentTerm && args.prevLogIndex >= 0
    requires OnAppend(sv, args).value.1.success
    ensures var sv' := OnAppend(sv, args).value.0;
            && sv'.log == (if args.entries == [] then sv.log else MergeAt(sv.log, args.prevLogIndex + 1, args.entries))
            && (args.entries == [] && args.leaderCommit <= sv.commitIndex ==> sv'.commitIndex == sv.commitIndex)
            && (args.entries != [] || args.leaderCommit > sv.commitIndex ==>
                  sv'.commitIndex <= args.leaderCommit && sv'.commitIndex <= |sv'.log| - 1 &&
                  (sv'.commitIndex == args.leaderCommit || sv'.commitIndex == |sv'.log| - 1))
  {
    hide MergeAt;
  }

  // ---- replies (raft.go:222-259) ------------------------------------------------------------------

  /** What the leader knows to hold index cmt after the reply of server `from`. */
  ghost function KnownHolders(sv: Server, me: nat, from: nat, cmt: int): set<nat>
    requires from < |sv.matchIndex|
  {
    HolderSet(sv.matchIndex[from := cmt], me, cmt)
  }

  /** A reply from a higher term to a request of the own term deposes; a reply to a request of
      another term does nothing. */
  lemma {:induction false} AppendReplyRule(sv: Server, me: nat, from: nat, args: AppendArgs, reply: AppendReply, n: nat)
    requires OnAppendReply(sv, me, from, args, reply, n).Some?
    ensures var sv' := OnAppendReply(sv, me, from, args, reply, n).value;
            && (args.term != sv.currentTerm ==> sv' == sv)
            && (sv'.currentTerm != sv.currentTerm <==> args.term == sv.currentTerm && reply.term > sv.currentTerm)
            && (sv'.currentTerm != sv.currentTerm ==> sv' == sv.(currentTerm := reply.term, voteFor := -1, role := Follower))
            && (sv'.currentTerm == sv.currentTerm ==> sv'.role == sv.role && sv'.voteFor == sv.voteFor)
            && sv'.log == sv.log && sv'.lastApplied == sv.lastApplied
  {
    hide Holders;
  }

  /** A refusal lowers nextIndex of the replier by one; an accepted heartbeat does nothing. */
  lemma {:induction false} RefusalRule(sv: Server, me: nat, from: nat, args: AppendArgs, reply: AppendReply, n: nat)
    requires args.term == sv.currentTerm >= reply.term && from < |sv.nextIndex| && from < |sv.matchIndex|
    requires !reply.success || args.entries == []
    ensures OnAppendReply(sv, me, from, args, reply, n) ==
            Some(if reply.success then sv else sv.(nextIndex := sv.nextIndex[from := sv.nextIndex[from] - 1]))
  {
  }

  /** Confirmed entries move nextIndex and matchIndex of the replier behind them, and the
      commit index to the last of them exactly if it is higher, of the own term, and known to
      be held by a majority. */
  lemma {:induction false} CommitRule(sv: Server, me: nat, from: nat, args: AppendArgs, reply: AppendReply, n: nat)
    requires args.term == sv.currentTerm >= reply.term && reply.success && args.entries != []
    requires |sv.nextIndex| == |sv.matchIndex| == n && from < n && me < n
    requires 0 <= args.prevLogIndex && args.prevLogIndex + |args.entries| < |sv.log|
    ensures OnAppendReply(sv, me, from, args, reply, n).Some?
    ensures var sv', cmt := OnAppendReply(sv, me, from, args, reply, n).value, args.prevLogIndex + |args.entries|;
            && sv'.nextIndex == sv.nextIndex[from := cmt + 1] && sv'.matchIndex == sv.matchIndex[from := cmt]
            && sv'.commitIndex ==
               if cmt > sv.commitIndex && sv.log[cmt].term == sv.currentTerm && 2 * |KnownHolders(sv, me, from, cmt)| > n
               then cmt else sv.commitIndex
  {
    var cmt := args.prevLogIndex + |args.entries|;
    HoldersCount(sv.matchIndex[from := cmt], me, cmt);
    hide Holders, HolderSet;
  }

  // ---- terms ----------------------------------------------------------------------------------------

  /** Whoever handles a message takes over its term if that is higher: requests always,
      replies to requests of the own term. */
  lemma {:induction false} TermsAreAdopted(sv: Server, votes: VoteArgs, entries: AppendArgs)
    requires |sv.log| > 0
    ensures OnVote(sv, votes).0.currentTerm >= votes.term
    ensures OnAppend(sv, entries).Some? ==> OnAppend(sv, entries).value.0.currentTerm >= entries.term
  {
    hide MergeAt;
  }

  // ---- applying (raft.go:768-784) ---------------------------------------------------------------------

  /** A turn of the applier sends a command exactly if something committed is unsent, and
      then the next one. */
  lemma {:induction false} ApplyRule(sv: Server)
    requires 0 <= sv.lastApplied && sv.commitIndex < |sv.log|
    ensures Apply(sv).Some?
    ensures var (sv', msg) := Apply(sv).value;
            && (msg.Some? <==> sv.lastApplied < sv.commitIndex)
            && (msg.Some? ==> msg.value == sv.log[sv.lastApplied + 1].entry)
            && sv' == sv.(lastApplied := if msg.Some? then sv.lastApplied + 1 else sv.lastApplied)
  {
  }
}
