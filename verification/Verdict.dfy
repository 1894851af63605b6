/** The verdict of src/porcupine/checker.go:269-348.  One goroutine per partition
    runs the search and sends its answer; the collector receives answers in any
    order, may time out, and may raise the kill flag.  The protocol is a state
    machine over these steps; `truth[i]` says whether partition i is linearizable.
    By the contract of `Search.CheckSingle`, an answer that was not cut short by
    the kill flag is the truth, and one that was is false. */
module Verdict {

  datatype Worker = Running | Sent(answer: bool, sawKill: bool)

  datatype Result = Ok | Illegal | Unknown

  datatype Phase = Collecting | Leaving | Returned(result: Result)

  datatype State = State(
    workers: seq<Worker>,
    channel: set<nat>,     // answers sent and not yet received, by worker
    received: set<nat>,    // answers the verdict is based on
    count: nat,
    ok: bool,
    timedOut: bool,
    kill: bool,
    phase: Phase)

  datatype Action =
    | Finish(i: nat)     // worker i runs to its end
    | Abort(i: nat)      // worker i sees the kill flag
    | Receive(i: nat)
    | Timeout
    | Drain(i: nat)
    | Return

  ghost function Start(truth: seq<bool>): State {
    State(seq(|truth|, _ => Running), {}, {}, 0, true, false, false, Collecting)
  }

  /** The collector leaves its loop on a refusal, unless all answers are wanted
      for the report, or when the last answer is in. */
  ghost function AfterReceive(s: State, i: nat, info: bool): State
    requires i < |s.workers| && s.workers[i].Sent?
  {
    var ok := s.ok && s.workers[i].answer;
    var stop := !ok && !info;
    s.(channel := s.channel - {i}, received := s.received + {i}, count := s.count + 1, ok := ok,
       kill := s.kill || stop,
       phase := if stop || s.count + 1 >= |s.workers| then Leaving else Collecting)
  }

  ghost predicate Step(truth: seq<bool>, info: bool, s: State, a: Action, s': State)
    requires |s.workers| == |truth|
  {
    match a
    case Finish(i) =>
      i < |truth| && s.workers[i].Running? &&
      s' == s.(workers := s.workers[i := Sent(truth[i], false)], channel := s.channel + {i})
    case Abort(i) =>
      i < |truth| && s.workers[i].Running? && s.kill &&
      s' == s.(workers := s.workers[i := Sent(false, true)], channel := s.channel + {i})
    case Receive(i) =>
      s.phase.Collecting? && i in s.channel && i < |truth| && s.workers[i].Sent? && s' == AfterReceive(s, i, info)
    case Timeout =>
      s.phase.Collecting? && s' == s.(timedOut := true, kill := true, phase := Leaving)
    case Drain(i) =>
      s.phase.Leaving? && info && s.count < |truth| && i in s.channel &&
      s' == s.(channel := s.channel - {i}, count := s.count + 1)
    case Return =>
      s.phase.Leaving? && (info ==> s.count >= |truth|) &&
      s' == s.(phase := Returned(if !s.ok then Illegal else if s.timedOut then Unknown else Ok))
  }

  /** A run: every state follows from the one before by some step. */
  ghost predicate Run(truth: seq<bool>, info: bool, states: seq<State>, actions: seq<Action>) {
    && |states| == |actions| + 1
    && states[0] == Start(truth)
    && (forall k :: 0 <= k < |states| ==> |states[k].workers| == |truth|)
    && forall k :: 0 <= k < |actions| ==> Step(truth, info, states[k], actions[k], states[k + 1])
  }

  // ---- the invariant ------------------------------------------------------------

  ghost predicate Inv(truth: seq<bool>, s: State) {
    && |s.workers| == |truth|
    // answers: cut short only after the flag went up, and then false
    && (forall i :: 0 <= i < |truth| && s.workers[i].Sent? && s.workers[i].sawKill ==> !s.workers[i].answer && s.kill)
    && (forall i :: 0 <= i < |truth| && s.workers[i].Sent? && !s.workers[i].sawKill ==> s.workers[i].answer == truth[i])
    && (forall i :: i in s.channel ==> i < |truth| && s.workers[i].Sent?)
    // the verdict rests on untainted answers only
    && (forall i :: i in s.received ==> i < |truth| && i !in s.channel && s.workers[i].Sent? && !s.workers[i].sawKill)
    && (s.ok <==> forall i :: i in s.received ==> truth[i])
    && (s.phase.Collecting? ==> !s.kill && !s.timedOut && s.count == |s.received|)
    && (s.phase.Collecting? ==> |s.received| < |truth| || |truth| == 0)
    && (!s.phase.Collecting? ==> s.timedOut || !s.ok || (|s.received| == |truth| && |truth| > 0))
    && (s.phase.Returned? ==> s.phase.result == if !s.ok then Illegal else if s.timedOut then Unknown else Ok)
  }

  lemma {:induction false} InvStep(truth: seq<bool>, info: bool, s: State, a: Action, s': State)
    requires Inv(truth, s) && Step(truth, info, s, a, s')
    ensures Inv(truth, s')
  {
    if a.Receive? {
      ReceiveStep(truth, info, s, a.i, s');
    } else if a.Finish? || a.Abort? {
      WorkerStep(truth, info, s, a, s');
    }
  }

  lemma {:induction false} ReceiveStep(truth: seq<bool>, info: bool, s: State, i: nat, s': State)
    requires Inv(truth, s) && Step(truth, info, s, Receive(i), s')
    ensures Inv(truth, s')
  {
    assert |s.received + {i}| == |s.received| + 1;
    SubsetBound(s'.received, |truth|);
  }

  lemma {:induction false} WorkerStep(truth: seq<bool>, info: bool, s: State, a: Action, s': State)
    requires Inv(truth, s) && (a.Finish? || a.Abort?) && Step(truth, info, s, a, s')
    ensures Inv(truth, s')
  {
  }

  lemma {:induction false} SubsetBound(a: set<nat>, n: nat)
    requires forall i :: i in a ==> i < n
    ensures |a| <= n
    ensures |a| == n ==> forall i: nat :: i < n ==> i in a
  {
    if n == 0 {
      assert a == {};
    } else {
      SubsetBound(a - {n - 1}, n - 1);
      if n - 1 in a {
        assert |a - {n - 1}| == |a| - 1;
      } else {
        assert a - {n - 1} == a;
      }
    }
  }

  lemma {:induction false} InvRun(truth: seq<bool>, info: bool, states: seq<State>, actions: seq<Action>, k: nat)
    requires Run(truth, info, states, actions) && k < |states|
    ensures Inv(truth, states[k])
  {
    if k > 0 {
      InvRun(truth, info, states, actions, k - 1);
      InvStep(truth, info, states[k - 1], actions[k - 1], states[k]);
    }
  }

  ghost predicate NoTimeout(actions: seq<Action>, k: nat) {
    forall j :: 0 <= j < k && j < |actions| ==> !actions[j].Timeout?
  }

  lemma {:induction false} TimedOutMeaning(truth: seq<bool>, info: bool, states: seq<State>, actions: seq<Action>, k: nat)
    requires Run(truth, info, states, actions) && k < |states|
    ensures states[k].timedOut <==> !NoTimeout(actions, k)
  {
    if k > 0 {
      TimedOutMeaning(truth, info, states, actions, k - 1);
      assert Step(truth, info, states[k - 1], actions[k - 1], states[k]);
    }
  }

  /** For every arrival order, every kill and every moment of a timeout: Ok means
      that all partitions are linearizable, Illegal that one is not and was
      searched to its end, Unknown that the timeout struck before a refusal. */
  lemma {:induction false} VerdictTheorem(truth: seq<bool>, info: bool, states: seq<State>, actions: seq<Action>, k: nat)
    requires Run(truth, info, states, actions) && k < |states| && states[k].phase.Returned?
    ensures states[k].phase.result == Ok ==> forall i :: 0 <= i < |truth| ==> truth[i]
    ensures states[k].phase.result == Illegal ==>
              exists i :: 0 <= i < |truth| && !truth[i] && states[k].workers[i] == Sent(false, false)
    ensures states[k].phase.result == Unknown ==> !NoTimeout(actions, k)
    ensures NoTimeout(actions, k) ==>
              (states[k].phase.result == Ok <==> forall i :: 0 <= i < |truth| ==> truth[i])
  {
    InvRun(truth, info, states, actions, k);
    TimedOutMeaning(truth, info, states, actions, k);
    var s := states[k];
    if s.ok && !s.timedOut {
      SubsetBound(s.received, |truth|);
      forall i: nat | i < |truth|
        ensures truth[i]
      {
        assert i in s.received;
      }
    }
    if !s.ok {
      var i :| i in s.received && !truth[i];
      assert s.workers[i] == Sent(false, false);
    }
  }

  /** Without partitions the collector waits for an answer that never comes: only
      a timeout ends the run, and the verdict is then Unknown.  An empty key/value
      history has no partitions. */
  lemma {:induction false} NoPartitions(info: bool, states: seq<State>, actions: seq<Action>, k: nat)
    requires Run([], info, states, actions) && k < |states| && states[k].phase.Returned?
    ensures states[k].phase.result == Unknown && !NoTimeout(actions, k)
  {
    InvRun([], info, states, actions, k);
    TimedOutMeaning([], info, states, actions, k);
    assert forall i :: i !in states[k].received;
  }

  // ---- when the flag goes up and what is waited for ---------------------------------------

  /** A refusal has reached the collector while it was collecting. */
  ghost predicate Refused(truth: seq<bool>, actions: seq<Action>, k: nat) {
    exists j :: 0 <= j < k && j < |actions| && Refuses(truth, actions[j])
  }

  predicate Refuses(truth: seq<bool>, a: Action) {
    a.Receive? && a.i < |truth| && !truth[a.i]
  }

  ghost function Answered(s: State): set<nat> {
    set i | 0 <= i < |s.workers| && s.workers[i].Sent?
  }

  /** Answers are in the channel or taken out of it; the collector stops early only for a
      timeout or for a refusal that need not be reported. */
  ghost predicate Waits(truth: seq<bool>, info: bool, s: State, refused: bool) {
    && Inv(truth, s)
    && s.channel <= Answered(s) && s.count + |s.channel| == |Answered(s)|
    && (s.ok <==> !refused)
    && (s.kill <==> s.timedOut || (refused && !info))
    && (!info && refused ==> !s.phase.Collecting?)
    && (info && !s.phase.Collecting? ==> s.timedOut || |s.received| == |truth|)
    && (s.phase.Returned? && info ==> s.count >= |truth|)
  }

  lemma {:induction false} AnsweredMore(s: State, i: nat, w: Worker)
    requires i < |s.workers| && s.workers[i].Running? && w.Sent?
    ensures i !in Answered(s) && Answered(s.(workers := s.workers[i := w])) == Answered(s) + {i}
  {
  }

  lemma {:induction false} WaitsStep(truth: seq<bool>, info: bool, s: State, a: Action, s': State, refused: bool)
    requires Waits(truth, info, s, refused) && Step(truth, info, s, a, s')
    ensures Waits(truth, info, s', refused || Refuses(truth, a))
  {
    hide Waits, Step, Inv;
    if a.Finish? || a.Abort? {
      AnsweredWaits(truth, info, s, a, s', refused);
    } else if a.Receive? {
      ReceivedWaits(truth, info, s, a.i, s', refused);
    } else {
      OtherWaits(truth, info, s, a, s', refused);
    }
  }

  lemma {:induction false} AnsweredWaits(truth: seq<bool>, info: bool, s: State, a: Action, s': State, refused: bool)
    requires Waits(truth, info, s, refused) && Step(truth, info, s, a, s') && (a.Finish? || a.Abort?)
    ensures Waits(truth, info, s', refused || Refuses(truth, a))
  {
    InvStep(truth, info, s, a, s');
    AnsweredMore(s, a.i, if a.Finish? then Sent(truth[a.i], false) else Sent(false, true));
    assert Answered(s') == Answered(s.(workers := s'.workers));
  }

  lemma {:induction false} OtherWaits(truth: seq<bool>, info: bool, s: State, a: Action, s': State, refused: bool)
    requires Waits(truth, info, s, refused) && Step(truth, info, s, a, s') && !a.Finish? && !a.Abort? && !a.Receive?
    ensures Waits(truth, info, s', refused || Refuses(truth, a))
  {
    InvStep(truth, info, s, a, s');
    assert Answered(s') == Answered(s);
  }

  lemma {:induction false} ReceivedWaits(truth: seq<bool>, info: bool, s: State, i: nat, s': State, refused: bool)
    requires Waits(truth, info, s, refused) && Step(truth, info, s, Receive(i), s')
    ensures Waits(truth, info, s', refused || Refuses(truth, Receive(i)))
  {
    InvStep(truth, info, s, Receive(i), s');
    assert Answered(s') == Answered(s);
    assert |s.received + {i}| == |s.received| + 1;
    SubsetBound(s'.received, |truth|);
  }

  lemma {:induction false} WaitsRun(truth: seq<bool>, info: bool, states: seq<State>, actions: seq<Action>, k: nat)
    requires Run(truth, info, states, actions) && k < |states|
    ensures Waits(truth, info, states[k], Refused(truth, actions, k))
  {
    if k == 0 {
      assert Answered(states[0]) == {};
      InvRun(truth, info, states, actions, 0);
    } else {
      WaitsRun(truth, info, states, actions, k - 1);
      assert Step(truth, info, states[k - 1], actions[k - 1], states[k]);
      WaitsStep(truth, info, states[k - 1], actions[k - 1], states[k], Refused(truth, actions, k - 1));
      hide Waits, Step, Inv;
      assert Refused(truth, actions, k) <==> Refused(truth, actions, k - 1) || Refuses(truth, actions[k - 1]);
    }
  }

  /** The verdict as a function of what was received and of the timeout. */
  lemma {:induction false} VerdictExact(truth: seq<bool>, info: bool, states: seq<State>, actions: seq<Action>, k: nat)
    requires Run(truth, info, states, actions) && k < |states| && states[k].phase.Returned?
    ensures states[k].phase.result ==
            if Refused(truth, actions, k) then Illegal else if NoTimeout(actions, k) then Ok else Unknown
  {
    WaitsRun(truth, info, states, actions, k);
    TimedOutMeaning(truth, info, states, actions, k);
  }

  /** The kill flag is up exactly after a timeout or, if no report is wanted, after a
      refusal.  If a report is wanted the collector waits for every partition to end, and
      without a timeout every partition is searched to its end. */
  lemma {:induction false} ReportWaits(truth: seq<bool>, info: bool, states: seq<State>, actions: seq<Action>, k: nat)
    requires Run(truth, info, states, actions) && k < |states|
    ensures states[k].kill <==> !NoTimeout(actions, k) || (!info && Refused(truth, actions, k))
    ensures info && states[k].phase.Returned? ==> forall i :: 0 <= i < |truth| ==> states[k].workers[i].Sent?
    ensures info && states[k].phase.Returned? && NoTimeout(actions, k) ==>
              forall i :: 0 <= i < |truth| ==> states[k].workers[i] == Sent(truth[i], false)
    ensures !info && Refused(truth, actions, k) ==> !states[k].phase.Collecting?
  {
    WaitsRun(truth, info, states, actions, k);
    TimedOutMeaning(truth, info, states, actions, k);
    var s := states[k];
    SubsetBound(Answered(s), |truth|);
    if info && s.phase.Returned? {
      forall i: nat | i < |truth|
        ensures s.workers[i].Sent?
      {
        assert i in Answered(s);
      }
    }
  }
}
