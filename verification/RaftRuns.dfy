/** Concrete runs of the cluster, built action by action, in which all but one of the
    conditions E1 to E5 hold.  The runs use no step that the code or src/labrpc/labrpc.go
    could not take: every request is delivered once, every reply handled once, every
    leadership read by Start appends once, and every election asks for votes once. */
module RaftRuns {
  import opened Collections
  import opened RaftServer
  import opened RaftSystem

  // ---- what is still to come ------------------------------------------------------------

  /** What has been started and not yet used up; `asked` and `led` only grow. */
  datatype Ledger = Ledger(
    owed: multiset<nat>,             // elections started, votes not yet asked for
    asked: set<(nat, nat)>,          // requests for votes handled, by election and voter
    answers: multiset<Answer>,       // votes on their way to the candidate
    requests: multiset<Request>,     // entries on their way to a receiver
    acks: multiset<Ack>,             // replies on their way to the sender
    leads: multiset<(nat, int)>,     // leaderships read by a Start that has not appended
    led: set<nat>)                   // servers that have led, whose senders may be under way

  const NOTHING := Ledger(multiset{}, {}, multiset{}, multiset{}, multiset{}, multiset{}, {})

  /** The step uses what is there, once, and leaves what it starts. */
  ghost predicate Spends(l: Ledger, s: System, a: Action, s': System, l': Ledger) {
    match a
    case StartElection(id) =>
      id < |s.servers| && l' == if s.servers[id].role == Leader then l else l.(owed := l.owed + multiset{id})
    case AskVotes(id) =>
      id in l.owed && l' == l.(owed := l.owed - multiset{id})
    case HandleVote(id, e) =>
      && id < |s.servers| && e < |s.elections| && (e, id) !in l.asked
      && l' == l.(asked := l.asked + {(e, id)}, answers := l.answers + multiset{Answer(e, id, OnVote(s.servers[id], s.elections[e].args).1)})
    case HandleAnswer(ans) =>
      && ans in l.answers && ans.election < |s.elections|
      && var id := s.elections[ans.election].args.candidateId;
         && 0 <= id < |s'.servers|
         && l' == l.(answers := l.answers - multiset{ans}, led := if s'.servers[id].role == Leader then l.led + {id} else l.led)
    case SendAppend(id, to) =>
      && id in l.led && id < |s.servers| && MakeAppendArgs(s.servers[id], id, to).Some?
      && l' == l.(requests := l.requests + multiset{Request(to, MakeAppendArgs(s.servers[id], id, to).value)})
    case HandleAppend(r) =>
      && r in l.requests && r.to < |s.servers| && OnAppend(s.servers[r.to], r.args).Some?
      && l' == l.(requests := l.requests - multiset{r}, acks := l.acks + multiset{Ack(r.to, r.args, OnAppend(s.servers[r.to], r.args).value.1)})
    case HandleAck(ack) =>
      ack in l.acks && l' == l.(acks := l.acks - multiset{ack})
    case ReadState(id) =>
      && id < |s.servers|
      && l' == if s.servers[id].role == Leader then l.(leads := l.leads + multiset{(id, s.servers[id].currentTerm)}) else l
    case AppendCommand(id, term, command) =>
      (id, term) in l.leads && l' == l.(leads := l.leads - multiset{(id, term)})
    case ApplyOne(id) => l' == l
    case Restart(id) => l' == l
  }

  // ---- runs with one condition lifted -----------------------------------------------------

  datatype Lapse = E1 | E2 | E3 | E4 | E5 | NoLapse

  /** How many servers it takes to show the lapse. */
  function N(x: Lapse): nat {
    if x == E4 then 5 else 3
  }

  /** All conditions hold except possibly one. */
  ghost predicate OthersHold(x: Lapse, s: System, a: Action) {
    && Sized(N(x), s)
    && (x == E1 || SenderLeads(s, a))
    && (x == E2 || StartAtomic(s, a))
    && (x == E3 || NextPositive(s, a))
    && (x == E4 || MatchFresh(N(x), s, a))
    && (x == E5 || NoRestart(a))
  }

  ghost predicate RunBut(x: Lapse, states: seq<System>, ledgers: seq<Ledger>, actions: seq<Action>) {
    && CodeRun(N(x), states, actions) && |ledgers| == |states| && ledgers[0] == NOTHING
    && (forall k :: 0 <= k < |actions| ==> OthersHold(x, states[k], actions[k]))
    && forall k :: 0 <= k < |actions| ==> Spends(ledgers[k], states[k], actions[k], states[k + 1], ledgers[k + 1])
  }

  ghost predicate Reaches(x: Lapse, s: System, l: Ledger) {
    exists states, ledgers, actions :: RunBut(x, states, ledgers, actions) && states[|actions|] == s && ledgers[|actions|] == l
  }

  /** A state that is reached, with what the ledger says about it. */
  ghost predicate Live(x: Lapse, s: System, l: Ledger) {
    && Reaches(x, s, l) && Sized(N(x), s)
    && (forall e, v :: (e, v) in l.asked ==> e < |s.elections|)
    && (forall a :: a in l.acks ==> a in s.acks)
    && (forall p :: p in l.leads ==> p in s.leads)
  }

  lemma {:induction false} StepTo(x: Lapse, s: System, l: Ledger, a: Action, s': System, l': Ledger)
    requires Reaches(x, s, l) && Sized(N(x), s) && Sized(N(x), s') && Next(N(x), s, a, s') && OthersHold(x, s, a) && Spends(l, s, a, s', l')
    ensures Reaches(x, s', l')
  {
    hide Next, OthersHold, Init, Spends;
    var states, ledgers, actions :| RunBut(x, states, ledgers, actions) && states[|actions|] == s && ledgers[|actions|] == l;
    var states', ledgers', actions' := states + [s'], ledgers + [l'], actions + [a];
    assert CodeRun(N(x), states', actions');
    assert RunBut(x, states', ledgers', actions');
  }

  /** Without a lapse a run keeps all conditions. */
  lemma {:induction false} NoLapseIsGood(s: System, l: Ledger)
    requires Reaches(NoLapse, s, l)
    ensures exists states, actions :: GoodRun(3, states, actions) && states[|actions|] == s
  {
    hide SenderLeads, StartAtomic, NextPositive, MatchFresh, NoRestart, Next, Spends, Init;
    var states, ledgers, actions :| RunBut(NoLapse, states, ledgers, actions) && states[|actions|] == s && ledgers[|actions|] == l;
    assert forall k :: 0 <= k < |actions| ==> OthersHold(NoLapse, states[k], actions[k]);
    assert GoodRun(3, states, actions);
  }

  // ---- pieces of runs -----------------------------------------------------------------------

  /** A server times out and asks for votes. */
  lemma {:induction false} Campaigns(x: Lapse, s: System, l: Ledger, id: nat) returns (s': System, l': Ledger)
    requires Live(x, s, l) && id < N(x) && s.servers[id].role != Leader
    ensures Live(x, s', l') && Sized(N(x), s') && s'.applied == s.applied && l' == l
    ensures s'.servers == s.servers[id := Campaign(s.servers[id], id)]
    ensures s'.elections == s.elections + [Election(MakeVoteArgs(s'.servers[id], id), 1, {})]
    ensures forall v :: (|s.elections|, v) !in l'.asked
  {
    hide Reaches, Vote;
    var s1, l1 := DoStartElection(s, id), l.(owed := l.owed + multiset{id});
    StepTo(x, s, l, StartElection(id), s1, l1);
    s', l' := DoAskVotes(s1, id), l;
    assert l1.owed - multiset{id} == l.owed;
    StepTo(x, s1, l1, AskVotes(id), s', l');
  }

  /** A server handles a request for its vote. */
  lemma {:induction false} Replies(x: Lapse, s: System, l: Ledger, id: nat, e: nat) returns (s': System, l': Ledger)
    requires Live(x, s, l) && id < N(x) && e < |s.elections| && s.elections[e].args.candidateId != id && (e, id) !in l.asked
    ensures Live(x, s', l') && Sized(N(x), s') && s'.applied == s.applied && s'.elections == s.elections
    ensures s'.servers == s.servers[id := OnVote(s.servers[id], s.elections[e].args).0]
    ensures var ans := Answer(e, id, OnVote(s.servers[id], s.elections[e].args).1);
            ans in s'.answers && l' == l.(asked := l.asked + {(e, id)}, answers := l.answers + multiset{ans})
  {
    hide Reaches, Vote, OnVote;
    var ans := Answer(e, id, OnVote(s.servers[id], s.elections[e].args).1);
    s', l' := DoHandleVote(s, id, e), l.(asked := l.asked + {(e, id)}, answers := l.answers + multiset{ans});
    StepTo(x, s, l, HandleVote(id, e), s', l');
  }

  /** A server votes, and the candidate counts the vote. */
  lemma {:induction false} Votes(x: Lapse, s: System, l: Ledger, id: nat, e: nat) returns (s': System, l': Ledger)
    requires Live(x, s, l) && id < N(x) && e < |s.elections| && (e, id) !in l.asked
    requires var c := s.elections[e]; 0 <= c.args.candidateId < N(x) && c.args.candidateId != id && id !in c.counted
    requires x == E4 || s.servers[s.elections[e].args.candidateId].matchIndex == Fill(N(x), 0)
    ensures Live(x, s', l') && Sized(N(x), s') && s'.applied == s.applied
    ensures var c := s.elections[e];
            var (voter, reply) := OnVote(s.servers[id], c.args);
            var (cand, voteNum) := OnVoteReply(s.servers[c.args.candidateId], c.args, reply, c.voteNum, N(x));
            s'.servers == s.servers[id := voter][c.args.candidateId := cand] &&
            s'.elections == s.elections[e := Election(c.args, voteNum, if voteNum != c.voteNum then c.counted + {id} else c.counted)] &&
            l' == l.(asked := l.asked + {(e, id)}, led := if cand.role == Leader then l.led + {c.args.candidateId} else l.led)
  {
    hide Reaches, Vote, Elect, OnVote, OnVoteReply;
    var c := s.elections[e];
    var ans := Answer(e, id, OnVote(s.servers[id], c.args).1);
    var s1, l1 := Replies(x, s, l, id, e);
    s' := DoHandleAnswer(N(x), s1, ans);
    assert l1.answers - multiset{ans} == l.answers;
    l' := l1.(answers := l.answers, led := if s'.servers[c.args.candidateId].role == Leader then l.led + {c.args.candidateId} else l.led);
    StepTo(x, s1, l1, HandleAnswer(ans), s', l');
  }

  /** A heartbeat is sent. */
  lemma {:induction false} Sends(x: Lapse, s: System, l: Ledger, id: nat, to: nat, args: AppendArgs) returns (s': System, l': Ledger)
    requires Live(x, s, l) && id < N(x) && to < N(x) && id != to && id in l.led
    requires MakeAppendArgs(s.servers[id], id, to) == Some(args)
    requires (x == E1 || s.servers[id].role == Leader) && (x == E3 || s.servers[id].nextIndex[to] >= 1)
    ensures Live(x, s', l') && Sized(N(x), s') && s' == s.(requests := s.requests + {Request(to, args)})
    ensures l' == l.(requests := l.requests + multiset{Request(to, args)})
  {
    hide Reaches, MakeAppendArgs;
    s', l' := DoSendAppend(s, id, to), l.(requests := l.requests + multiset{Request(to, args)});
    StepTo(x, s, l, SendAppend(id, to), s', l');
  }

  /** A heartbeat is received. */
  lemma {:induction false} Receives(x: Lapse, s: System, l: Ledger, r: Request, sv: Server) returns (s': System, l': Ledger)
    requires Live(x, s, l) && r.to < N(x) && r in s.requests && r in l.requests
    requires OnAppend(s.servers[r.to], r.args).Some? && OnAppend(s.servers[r.to], r.args).value.0 == sv
    ensures Live(x, s', l') && Sized(N(x), s') && s'.applied == s.applied && s'.elections == s.elections && s'.servers == s.servers[r.to := sv]
    ensures l' == l.(requests := l.requests - multiset{r},
                     acks := l.acks + multiset{Ack(r.to, r.args, OnAppend(s.servers[r.to], r.args).value.1)})
  {
    hide Reaches, Confirm, OnAppend;
    s' := DoHandleAppend(s, r);
    l' := l.(requests := l.requests - multiset{r}, acks := l.acks + multiset{Ack(r.to, r.args, OnAppend(s.servers[r.to], r.args).value.1)});
    StepTo(x, s, l, HandleAppend(r), s', l');
  }

  /** A heartbeat travels. */
  lemma {:induction false} Beats(x: Lapse, s: System, l: Ledger, id: nat, to: nat, args: AppendArgs, sv: Server) returns (s': System, l': Ledger)
    requires Live(x, s, l) && id < N(x) && to < N(x) && id != to && id in l.led
    requires MakeAppendArgs(s.servers[id], id, to) == Some(args)
    requires (x == E1 || s.servers[id].role == Leader) && (x == E3 || s.servers[id].nextIndex[to] >= 1)
    requires OnAppend(s.servers[to], args).Some? && OnAppend(s.servers[to], args).value.0 == sv
    ensures Live(x, s', l') && Sized(N(x), s') && s'.applied == s.applied && s'.elections == s.elections && s'.servers == s.servers[to := sv]
    ensures l' == l.(acks := l.acks + multiset{Ack(to, args, OnAppend(s.servers[to], args).value.1)})
  {
    hide Live, OnAppend, MakeAppendArgs;
    Bounded(x, s, l);
    var s1, l1 := Sends(x, s, l, id, to, args);
    s', l' := Receives(x, s1, l1, Request(to, args), sv);
    assert l1.requests - multiset{Request(to, args)} == l.requests;
  }

  /** An answer to a heartbeat arrives. */
  lemma {:induction false} Hears(x: Lapse, s: System, l: Ledger, ack: Ack, sv: Server) returns (s': System, l': Ledger)
    requires Live(x, s, l) && ack in l.acks && 0 <= ack.args.leaderId < N(x)
    requires OnAppendReply(s.servers[ack.args.leaderId], ack.args.leaderId, ack.from, ack.args, ack.reply, N(x)) == Some(sv)
    ensures Live(x, s', l') && Sized(N(x), s') && s' == s.(servers := s.servers[ack.args.leaderId := sv]) && l' == l.(acks := l.acks - multiset{ack})
  {
    hide Reaches, OnAppendReply;
    s', l' := DoHandleAck(N(x), s, ack), l.(acks := l.acks - multiset{ack});
    StepTo(x, s, l, HandleAck(ack), s', l');
  }

  /** A server begins a Start. */
  lemma {:induction false} Begins(x: Lapse, s: System, l: Ledger, id: nat) returns (s': System, l': Ledger)
    requires Live(x, s, l) && id < N(x) && s.servers[id].role == Leader
    ensures Live(x, s', l') && Sized(N(x), s') && s' == s.(leads := s'.leads)
    ensures l' == l.(leads := l.leads + multiset{(id, s.servers[id].currentTerm)})
  {
    hide Reaches;
    s', l' := DoReadState(s, id), l.(leads := l.leads + multiset{(id, s.servers[id].currentTerm)});
    StepTo(x, s, l, ReadState(id), s', l');
  }

  /** A server ends a Start. */
  lemma {:induction false} Ends(x: Lapse, s: System, l: Ledger, id: nat, term: int, command: Command) returns (s': System, l': Ledger)
    requires Live(x, s, l) && id < N(x) && (id, term) in l.leads
    requires x == E2 || (s.servers[id].role == Leader && s.servers[id].currentTerm == term)
    ensures Live(x, s', l') && Sized(N(x), s') && s'.applied == s.applied && s'.elections == s.elections
    ensures s'.servers == s.servers[id := Append(s.servers[id], term, command)]
    ensures l' == l.(leads := l.leads - multiset{(id, term)})
  {
    hide Reaches, Extend;
    s', l' := DoAppendCommand(s, id, term, command), l.(leads := l.leads - multiset{(id, term)});
    StepTo(x, s, l, AppendCommand(id, term, command), s', l');
  }

  /** A leader takes a command. */
  lemma {:induction false} Takes(x: Lapse, s: System, l: Ledger, id: nat, command: Command) returns (s': System, l': Ledger)
    requires Live(x, s, l) && id < N(x) && s.servers[id].role == Leader
    ensures Live(x, s', l') && Sized(N(x), s') && s'.applied == s.applied && s'.elections == s.elections && l' == l
    ensures s'.servers == s.servers[id := Append(s.servers[id], s.servers[id].currentTerm, command)]
  {
    hide Live, Append;
    Bounded(x, s, l);
    var s1, l1 := Begins(x, s, l, id);
    s', l' := Ends(x, s1, l1, id, s.servers[id].currentTerm, command);
    assert l'.leads == l.leads;
  }

  lemma {:induction false} Bounded(x: Lapse, s: System, l: Ledger)
    requires Live(x, s, l)
    ensures Sized(N(x), s)
  {
  }

  /** The applier of a server sends a command. */
  lemma {:induction false} Applies(x: Lapse, s: System, l: Ledger, id: nat, command: Command) returns (s': System, l': Ledger)
    requires Live(x, s, l) && id < N(x)
    requires Apply(s.servers[id]).Some? && Apply(s.servers[id]).value.1 == Some(command)
    ensures Live(x, s', l') && Sized(N(x), s') && s'.elections == s.elections && l' == l
    ensures s'.servers == s.servers[id := s.servers[id].(lastApplied := s.servers[id].lastApplied + 1)]
    ensures s'.applied == s.applied[id := s.applied[id] + [command]]
  {
    hide Reaches;
    s', l' := DoApplyOne(s, id), l;
    StepTo(x, s, l, ApplyOne(id), s', l');
  }

  lemma {:induction false} Boots(x: Lapse) returns (s: System, l: Ledger)
    ensures Live(x, s, l) && s == Init(N(x)) && l == NOTHING
  {
    s, l := Init(N(x)), NOTHING;
    assert RunBut(x, [s], [l], []);
  }
}
