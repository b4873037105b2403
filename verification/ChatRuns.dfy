/** Whole runs of the server, and what holds in every state they reach. */
module ChatRuns {
  import opened Chat
  import ChatSteps
  import opened ChatInvariants
  import opened ChatMessages
  import opened ChatLedger
  import opened ChatSessions
  import opened ChatStreams

  ghost predicate Inv(s: State) {
    && RefsOk(s) && ServerLockOk(s) && RoomLocksOk(s) && QueueLocksOk(s)
    && MembersOk(s) && NamesOk(s) && CountsOk(s)
    && OwnershipOk(s) && FlowOk(s)
    && JobsOk(s) && LogOk(s) && ContentOk(s) && LedgerOk(s) && LastsOk(s)
    && SessionsOk(s) && SettledOk(s)
    && TagsOk(s) && StreamsOk(s) && SpeechOk(s)
  }

  lemma InvInit()
    ensures Inv(INIT)
  {
  }

  lemma {:induction false} PointersAndNamesKept(s: State, a: Action)
    requires Inv(s) && Enabled(s, a) && Step(s, Next(s, a), a.t)
    ensures RefsOk(Next(s, a)) && NamesOk(Next(s, a))
  {
    ThreadRefsStep(s, a);
    RefsKept(s, Next(s, a), a.t);
    ThreadNamesStep(s, a);
    NamesKept(s, Next(s, a), a.t);
  }

  lemma LocksAndCountsKept(s: State, s': State, t: Tid)
    requires Inv(s) && Step(s, s', t) && RefsOk(s')
    ensures ServerLockOk(s') && RoomLocksOk(s') && QueueLocksOk(s') && MembersOk(s') && CountsOk(s')
    ensures OwnershipOk(s') && FlowOk(s')
  {
    ServerLockKept(s, s', t);
    RoomLocksKept(s, s', t);
    QueueLocksKept(s, s', t);
    MembersKept(s, s', t);
    CountsKept(s, s', t);
    OwnershipKept(s, s', t);
    FlowKept(s, s', t);
  }

  lemma LogAndContentKept(s: State, a: Action)
    requires Inv(s) && Enabled(s, a) && Step(s, Next(s, a), a.t)
    ensures JobsOk(Next(s, a)) && LogOk(Next(s, a)) && ContentOk(Next(s, a))
  {
    var s' := Next(s, a);
    assert JobAt(s, a.t) && TextAt(s, a.t) && HandContent(s, a.t);
    JobStep(s, a);
    AckStep(s, a);
    JobsKept(s, s', a.t);
    TextStep(s, a);
    LogKept(s, s', a.t);
    HandContentStep(s, a);
    ContentKept(s, s', a.t);
  }

  lemma DebtsKept(s: State, a: Action)
    requires Inv(s) && Enabled(s, a) && Step(s, Next(s, a), a.t)
    requires Ready(Next(s, a))
    ensures LedgerOk(Next(s, a)) && LastsOk(Next(s, a))
  {
    var s' := Next(s, a);
    assert JobAt(s, a.t);
    forall u: nat | u in s.threads ensures DebtMoves(s, s', a.t, u) {
      DebtStep(s, a, u);
    }
    LedgerKept(s, s', a.t);
    assert LastAt(s, a.t);
    LastStep(s, a);
    LastsKept(s, s', a.t);
  }

  lemma SessionsAndRoomsKept(s: State, a: Action)
    requires Inv(s) && Enabled(s, a) && Step(s, Next(s, a), a.t)
    ensures SessionsOk(Next(s, a)) && SettledOk(Next(s, a))
  {
    var s' := Next(s, a);
    assert ThreadOk(s, a.t);
    RoleStep(s, a);
    UntouchedStep(s, a);
    SessionStep(s, a);
    assert a.Deliver? ==> TagAt(s, s.threads[a.t].pc.msg);
    ReceiverStep(s, a);
    AimStep(s, a);
    SessionsKept(s, s', a.t);
    StaysSettledStep(s, a);
    forall e: nat | e < |s.log| ensures s.log[e].members <= s.threads.Keys {
      assert EntryAt(s, e);
    }
    SettledKept(s, s', a.t);
  }

  lemma StreamsAndSpeechKept(s: State, a: Action)
    requires Inv(s) && Enabled(s, a) && Step(s, Next(s, a), a.t)
    ensures TagsOk(Next(s, a)) && StreamsOk(Next(s, a)) && SpeechOk(Next(s, a))
  {
    TagsKept(s, Next(s, a), a.t);
    ChatSteps.SentStep(s, a);
    StreamsKept(s, Next(s, a), a.t);
    assert ThreadOk(s, a.t);
    SpeechStep(s, a);
    SpeechKept(s, Next(s, a), a);
  }

  /** The whole invariant survives every action of every thread. */
  lemma InvKept(s: State, a: Action)
    requires Inv(s) && Enabled(s, a)
    ensures Inv(Next(s, a))
  {
    EnabledStep(s, a);
    PointersAndNamesKept(s, a);
    LocksAndCountsKept(s, Next(s, a), a.t);
    LogAndContentKept(s, a);
    DebtsKept(s, a);
    SessionsAndRoomsKept(s, a);
    StreamsAndSpeechKept(s, a);
  }

  ghost predicate StepAt(states: seq<State>, actions: seq<Action>, i: nat)
    requires i < |actions| < |states|
  {
    Enabled(states[i], actions[i]) && states[i + 1] == Next(states[i], actions[i])
  }

  /** A finite run: states and the actions between them. */
  ghost predicate Run(states: seq<State>, actions: seq<Action>) {
    && |states| == |actions| + 1
    && states[0] == INIT
    && forall i :: 0 <= i < |actions| ==> StepAt(states, actions, i)
  }

  lemma {:induction false} InvHolds(states: seq<State>, actions: seq<Action>, i: nat)
    requires Run(states, actions) && i < |states|
    ensures Inv(states[i])
  {
    if i == 0 {
      InvInit();
    } else {
      InvHolds(states, actions, i - 1);
      assert StepAt(states, actions, i - 1);
      InvKept(states[i - 1], actions[i - 1]);
    }
  }

  ghost predicate Reachable(s: State) {
    exists states, actions :: Run(states, actions) && s == states[|states| - 1]
  }

  lemma ReachableInv(s: State)
    requires Reachable(s)
    ensures Inv(s)
  {
    var states, actions :| Run(states, actions) && s == states[|states| - 1];
    InvHolds(states, actions, |states| - 1);
  }
}
