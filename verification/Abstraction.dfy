/** What each part of a state of the server stands for in the atomic chat, and how an
    action of one thread moves it. */
module Abstraction {
  import opened Basics
  import opened Messages
  import opened Session
  import opened Chat
  import opened ChatSteps
  import opened ChatInvariants
  import opened ChatMessages
  import opened ChatLedger
  import opened ChatStreams
  import opened ChatRuns
  import opened AtomicChat

  function TextOfEntry(s: State, e: nat): Message {
    if e < |s.log| && s.log[e].room < |s.rooms| then Sent(s, e) else Message("", "")
  }

  /** The room a user is in, seen from its thread. */
  function Seat(s: State, u: Tid): Option<string>
    requires u in s.threads
  {
    var th := s.threads[u];
    if Member(th.pc) && InRoom(s, th) then Some(RoomOf(s, th).name) else None
  }

  /** What has been pushed for a user and neither sent to it nor lost. */
  function Pile(s: State, u: Tid): seq<Addr>
    requires u in s.queues
  {
    AsSeq(HandIn(PcAt(s, u))) + s.queues[u].messages
  }

  /** What a user can still expect: the message in its thread's hand, its deque, then
      the broadcast that has begun and has not reached it. */
  function Inbox(s: State, u: Tid): seq<Message>
    requires u in s.queues
  {
    Texts(s, Pile(s, u)) + (if Owed(s, u).Some? then [TextOfEntry(s, Owed(s, u).value)] else [])
  }

  function PersonOf(s: State, u: Tid): Person
    requires u in s.threads && u in s.queues
  {
    var th := s.threads[u];
    Person(th.username, th.role, th.requests, th.sent, Seat(s, u), Spoken(s.rooms, s.log, u),
           Inbox(s, u), Texts(s, th.dropped))
  }

  /** The atomic world that a state of the server stands for. */
  function Abs(s: State): World {
    map u | u in s.threads && u in s.queues :: PersonOf(s, u)
  }

  /** What a chat loop answers at once to a request. */
  function AtOnce(th: Thread, r: Request): seq<Message> {
    if th.pc.Idle? then OnRequest(th.room, th.roomName, r).said else OnFirstRequest(th.roomName, r).said
  }

  /** The atomic event that an action carries out. */
  function EventOf(s: State, a: Action): Event
    requires Enabled(s, a)
  {
    match a
    case Arrive(t, username, role) => Come(t, username, role)
    case SendWelcome(t, sent) => if sent then Answer(t, WelcomeReply(s.threads[t].username)) else Nothing
    case Hear(t, r) => Ask(t, r, AtOnce(s.threads[t], r))
    case UpdateMembers(t) =>
      if s.threads[t].pc.Adding? then Sit(t, RoomOf(s, s.threads[t]).name) else Rise(t)
    case LockRoom(t) =>
      if s.threads[t].pc.WantBroadcast? then Broadcast(t, s.threads[t].pc.text) else Nothing
    case TimedWait(t, available) => if available then Nothing else Answer(t, EMPTY_REPLY)
    case Deliver(t, sent) => if sent then Show(t) else Lose(t)
    case Acknowledge(t) => Answer(t, Acknowledgement(s, s.threads[t]))
    case _ => Nothing
  }

  // ---- Inboxes

  lemma EntryStays(s: State, s': State, t: Tid, e: nat)
    requires Step(s, s', t) && EntryAt(s, e) && e < |s.log|
    ensures TextOfEntry(s', e) == TextOfEntry(s, e)
  {
    RoomNamesStay(s, s', t);
  }

  predicate Starts(s: State, s': State, u: Tid) {
    |s'.log| > |s.log| && u in s.threads && Eligible(s'.log[|s.log|], u, s.threads[u].username)
  }

  /** Thread t sends the message in its hand, or fails to. */
  predicate LetsGo(s: State, s': State, t: Tid) {
    HandIn(PcAt(s, t)).Some? && HandIn(PcAt(s', t)).None?
  }

  /** A push makes the pile longer, a delivery takes its first message, and a pop only
      moves that from the deque into the hand. */
  predicate PileMoves(s: State, s': State, t: Tid, u: Tid) {
    u in s.queues && u in s'.queues &&
    if Pushes(s, s', t) && PcAt(s, t).to == u then Pile(s', u) == Pile(s, u) + [PcAt(s, t).msg]
    else if LetsGo(s, s', t) && t == u then
      Pile(s, u) == [HandIn(PcAt(s, t)).value] + Pile(s', u)
    else Pile(s', u) == Pile(s, u)
  }

  lemma PileOfOther(s: State, s': State, t: Tid, u: Tid)
    requires ThreadsMove(s, s', t) && DequeMoves(s, s', t, u) && u in s.queues && u in s.threads && u != t
    ensures PileMoves(s, s', t, u)
  {
    assert PcAt(s', u) == PcAt(s, u);
    if Pushes(s, s', t) && PcAt(s, t).to == u {
      Associates(AsSeq(HandIn(PcAt(s, u))), s.queues[u].messages, [PcAt(s, t).msg]);
    }
  }

  lemma PileOfOwner(s: State, s': State, t: Tid)
    requires DequeMoves(s, s', t, t) && HeapMoves(s, s', t) && t in s.queues && t in s.threads
    ensures PileMoves(s, s', t, t)
  {
    var q := s.queues[t].messages;
    if Pops(s, s', t) {
      assert [q[0]] + q[1..] == q && [] + q == q;
    } else if Pushes(s, s', t) {
      assert [] + (q + [PcAt(s, t).msg]) == ([] + q) + [PcAt(s, t).msg];
    } else if LetsGo(s, s', t) {
      assert [] + q == q;
    }
  }

  predicate InboxMoves(s: State, s': State, t: Tid, u: Tid) {
    u in s.queues && u in s'.queues &&
    if Starts(s, s', u) then Inbox(s', u) == Inbox(s, u) + [TextOfEntry(s', |s.log|)]
    else if LetsGo(s, s', t) && t == u then
      Inbox(s, u) == [TextOf(s, HandIn(PcAt(s, t)).value)] + Inbox(s', u)
    else Inbox(s', u) == Inbox(s, u)
  }

  /** Every address on the pile is live. */
  predicate PileIsLive(s: State, u: Tid) {
    u in s.queues ==> forall i :: 0 <= i < |Pile(s, u)| ==> Pile(s, u)[i] < |s.heap|
  }

  lemma PileLives(s: State, u: Tid)
    requires HandsAt(s, u) && DequeAt(s, u)
    ensures PileIsLive(s, u)
  {
  }

  /** The push puts the owed message into the deque: nothing changes outside. */
  lemma InboxAfterPush(s: State, s': State, t: Tid, u: Tid)
    requires Step(s, s', t) && PileMoves(s, s', t, u) && PileIsLive(s, u) && OwedMoves(s, s', t, u)
    requires Pushes(s, s', t) && PcAt(s, t).to == u && HandContent(s, t)
    ensures Inbox(s', u) == Inbox(s, u) && s'.log == s.log
  {
    TextsStay(s, s', t, Pile(s, u));
    TextsAppend(s', Pile(s, u), PcAt(s, t).msg);
    assert TextOf(s', PcAt(s, t).msg) == TextOfEntry(s, PcAt(s, t).job.entry);
  }

  lemma InboxAfterLetGo(s: State, s': State, t: Tid)
    requires Step(s, s', t) && PileMoves(s, s', t, t) && PileIsLive(s, t) && OwedMoves(s, s', t, t)
    requires LetsGo(s, s', t)
    requires Owed(s, t).Some? ==> Owed(s, t).value < |s.log| && EntryAt(s, Owed(s, t).value)
    ensures s'.log == s.log && Inbox(s, t) == [TextOf(s, HandIn(PcAt(s, t)).value)] + Inbox(s', t)
  {
    var a, rest := HandIn(PcAt(s, t)).value, Pile(s', t);
    forall i | 0 <= i < |rest| ensures rest[i] < |s.heap| {
      assert rest[i] == Pile(s, t)[i + 1];
    }
    TextsStay(s, s', t, rest);
    assert Texts(s, [a] + rest) == [TextOf(s, a)] + Texts(s, rest);
    if Owed(s, t).Some? {
      EntryStays(s, s', t, Owed(s, t).value);
      Associates([TextOf(s, a)], Texts(s, rest), [TextOfEntry(s, Owed(s, t).value)]);
    } else {
      Associates([TextOf(s, a)], Texts(s, rest), []);
    }
  }

  lemma InboxOtherwise(s: State, s': State, t: Tid, u: Tid)
    requires Step(s, s', t) && PileMoves(s, s', t, u) && PileIsLive(s, u) && OwedMoves(s, s', t, u)
    requires !(Pushes(s, s', t) && PcAt(s, t).to == u) && !(LetsGo(s, s', t) && t == u)
    requires Owed(s, u).Some? ==> Owed(s, u).value < |s.log| && EntryAt(s, Owed(s, u).value)
    ensures Inbox(s', u) == Inbox(s, u) + (if Starts(s, s', u) then [TextOfEntry(s', |s.log|)] else [])
  {
    TextsStay(s, s', t, Pile(s, u));
    if Owed(s, u).Some? {
      EntryStays(s, s', t, Owed(s, u).value);
    }
  }

  lemma InboxFollows(s: State, s': State, t: Tid, u: Tid)
    requires Step(s, s', t) && PileMoves(s, s', t, u) && PileIsLive(s, u)
    requires OwedMoves(s, s', t, u) && HandContent(s, t)
    requires Owed(s, u).Some? ==> Owed(s, u).value < |s.log| && EntryAt(s, Owed(s, u).value)
    ensures InboxMoves(s, s', t, u)
  {
    if Pushes(s, s', t) && PcAt(s, t).to == u {
      InboxAfterPush(s, s', t, u);
    } else if LetsGo(s, s', t) && t == u {
      InboxAfterLetGo(s, s', t);
    } else {
      InboxOtherwise(s, s', t, u);
      assert Inbox(s, u) + [] == Inbox(s, u);
    }
  }

  lemma OwedIsLogged(s: State, u: Tid)
    requires JobsOk(s) && Owed(s, u).Some?
    ensures Owed(s, u).value < |s.log|
  {
    OwedIsDebt(s, u);
    assert JobAt(s, RoomOf(s, s.threads[u]).lock.value);
  }

  lemma OwedFollows(s: State, a: Action, u: Tid)
    requires Inv(s) && Enabled(s, a) && Step(s, Next(s, a), a.t) && Ready(Next(s, a)) && u in s.threads
    ensures OwedMoves(s, Next(s, a), a.t, u)
    ensures Owed(s, u).Some? ==> Owed(s, u).value < |s.log| && EntryAt(s, Owed(s, u).value)
  {
    assert JobAt(s, a.t);
    DebtStep(s, a, u);
    OwedStep(s, Next(s, a), a.t, u);
    if Owed(s, u).Some? {
      OwedIsLogged(s, u);
    }
  }

  lemma PileStep(s: State, a: Action, u: Tid)
    requires Enabled(s, a) && u in s.threads && u in s.queues
    ensures PileMoves(s, Next(s, a), a.t, u)
  {
    DequeStep(s, a, u);
    if u == a.t {
      HeapStep(s, a);
      PileOfOwner(s, Next(s, a), u);
    } else {
      ThreadsStep(s, a);
      PileOfOther(s, Next(s, a), a.t, u);
    }
  }

  lemma InboxStep(s: State, a: Action, u: Tid)
    requires Inv(s) && Enabled(s, a) && Step(s, Next(s, a), a.t) && Ready(Next(s, a)) && u in s.threads
    ensures InboxMoves(s, Next(s, a), a.t, u)
  {
    OwedFollows(s, a, u);
    PileStep(s, a, u);
    assert HandsAt(s, u) && DequeAt(s, u) && HandContent(s, a.t);
    PileLives(s, u);
    InboxFollows(s, Next(s, a), a.t, u);
  }

  // ---- Seats

  /** A thread's own seat changes only when it updates the set of its room. */
  predicate SeatMoves(s: State, s': State, a: Action) {
    a.t in s.threads && a.t in s'.threads &&
    var before, after := Seat(s, a.t), Seat(s', a.t);
    if !a.UpdateMembers? then after == before
    else if s.threads[a.t].pc.Adding? then
      before == None && InRoom(s, s.threads[a.t]) && after == Some(RoomOf(s, s.threads[a.t]).name)
    else before.Some? && after == None
  }

  lemma SeatStepOfServer(s: State, a: Action)
    requires Enabled(s, a) && !a.Arrive? && ThreadRefs(s, s.threads[a.t])
    requires OfServer(a)
    ensures SeatMoves(s, Next(s, a), a)
  {
    assert !Member(PcAt(s, a.t)) && !Member(PcAt(Next(s, a), a.t));
  }

  lemma SeatStepOfRoom(s: State, a: Action)
    requires Enabled(s, a) && !a.Arrive? && ThreadRefs(s, s.threads[a.t])
    requires OfRoom(a)
    ensures SeatMoves(s, Next(s, a), a)
  {
  }

  lemma SeatStepOfQueue(s: State, a: Action)
    requires Enabled(s, a) && !a.Arrive? && ThreadRefs(s, s.threads[a.t])
    requires OfQueue(a)
    ensures SeatMoves(s, Next(s, a), a)
  {
  }

  lemma SeatStepOfTalk(s: State, a: Action)
    requires Enabled(s, a) && !a.Arrive? && ThreadRefs(s, s.threads[a.t])
    requires OfTalk(a)
    ensures SeatMoves(s, Next(s, a), a)
  {
  }

  lemma SeatStep(s: State, a: Action)
    requires Enabled(s, a) && !a.Arrive? && ThreadRefs(s, s.threads[a.t])
    ensures SeatMoves(s, Next(s, a), a)
  {
    if OfServer(a) {
      SeatStepOfServer(s, a);
    } else if OfRoom(a) {
      SeatStepOfRoom(s, a);
    } else if OfQueue(a) {
      SeatStepOfQueue(s, a);
    } else {
      SeatStepOfTalk(s, a);
    }
  }

  // ---- What is heard, told and lost

  /** What an action adds to the requests, to what is sent, and to what is lost. */
  function NewlyAsked(a: Action): seq<Request> {
    if a.Hear? then [a.r] else []
  }

  function NewlyTold(s: State, a: Action): seq<Message>
    requires Enabled(s, a) && !a.Arrive?
  {
    var th := s.threads[a.t];
    match a
    case SendWelcome(_, sent) => if sent then [WelcomeReply(th.username)] else []
    case Hear(_, r) => AtOnce(th, r)
    case TimedWait(_, available) => if available then [] else [EMPTY_REPLY]
    case Deliver(_, sent) => if sent then [s.heap[th.pc.msg].message] else []
    case Acknowledge(_) => [Acknowledgement(s, th)]
    case _ => []
  }

  function NewlyDropped(s: State, a: Action): seq<Addr>
    requires Enabled(s, a) && !a.Arrive?
  {
    if a.Deliver? && !a.sent then [s.threads[a.t].pc.msg] else []
  }

  predicate TalkMoves(s: State, s': State, a: Action)
    requires Enabled(s, a) && !a.Arrive?
  {
    a.t in s'.threads &&
    var th, th' := s.threads[a.t], s'.threads[a.t];
    && th'.username == th.username && th'.role == th.role
    && th'.requests == th.requests + NewlyAsked(a)
    && th'.sent == th.sent + NewlyTold(s, a)
    && th'.dropped == th.dropped + NewlyDropped(s, a)
  }

  lemma SilentStep(s: State, a: Action)
    requires Enabled(s, a) && !OfTalk(a)
    ensures TalkMoves(s, Next(s, a), a)
  {
    assert s.threads[a.t].sent + [] == s.threads[a.t].sent;
    assert s.threads[a.t].requests + [] == s.threads[a.t].requests;
    assert s.threads[a.t].dropped + [] == s.threads[a.t].dropped;
  }

  lemma TalkStep(s: State, a: Action)
    requires Enabled(s, a) && OfTalk(a) && !a.Arrive?
    ensures TalkMoves(s, Next(s, a), a)
  {
    assert s.threads[a.t].sent + [] == s.threads[a.t].sent;
    assert s.threads[a.t].requests + [] == s.threads[a.t].requests;
    assert s.threads[a.t].dropped + [] == s.threads[a.t].dropped;
  }

  lemma HeardAndTold(s: State, a: Action)
    requires Enabled(s, a) && !a.Arrive?
    ensures TalkMoves(s, Next(s, a), a)
  {
    if OfTalk(a) {
      TalkStep(s, a);
    } else {
      SilentStep(s, a);
    }
  }

  // ---- What is said

  predicate StartsBroadcast(s: State, a: Action) {
    a.LockRoom? && PcAt(s, a.t).WantBroadcast?
  }

  lemma LogStarts(s: State, a: Action)
    requires Enabled(s, a)
    ensures |Next(s, a).log| > |s.log| <==> StartsBroadcast(s, a)
    ensures LetsGo(s, Next(s, a), a.t) <==> a.Deliver?
  {
  }

  /** Only the speaker's list grows. */
  lemma SpokenOfOther(s: State, s': State, t: Tid, x: Tid)
    requires Step(s, s', t) && LogOk(s) && x != t
    ensures Spoken(s'.rooms, s'.log, x) == Spoken(s.rooms, s.log, x)
  {
    SpokenKept(s, s', t, x);
    LogMovesByOne(s, s', t);
    if s'.log != s.log {
      SpokenSnoc(s'.rooms, s.log, s'.log[|s'.log| - 1], x);
      assert Spoken(s'.rooms, s.log, x) + [] == Spoken(s'.rooms, s.log, x);
    }
  }

  // ---- Everyone else

  lemma OtherSeatsStay(s: State, s': State, t: Tid, u: Tid)
    requires Step(s, s', t) && u in s.threads && u != t && ThreadRefs(s, s.threads[u])
    ensures u in s'.threads && Seat(s', u) == Seat(s, u)
  {
    RoomNamesStay(s, s', t);
  }

  predicate DroppedIsLive(s: State, u: Tid) {
    u in s.threads ==> forall i :: 0 <= i < |s.threads[u].dropped| ==> s.threads[u].dropped[i] < |s.heap|
  }

  lemma DroppedLives(s: State, u: Tid)
    requires FlowAt(s, u) && ContentOk(s) && u in s.queues
    ensures DroppedIsLive(s, u)
  {
    if u in s.threads {
      var th, q := s.threads[u], s.queues[u];
      forall i | 0 <= i < |th.dropped| ensures th.dropped[i] < |s.heap| {
        assert q.pushed[|th.delivered| + i] == th.dropped[i];
        assert QueueContent(s, u, |th.delivered| + i);
      }
    }
  }

  /** A step of thread t changes nothing about another person but its inbox. */
  lemma OthersLookTheSame(s: State, s': State, t: Tid, u: Tid)
    requires Step(s, s', t) && LogOk(s) && u in s.threads && u in s.queues && u in s'.queues && u != t
    requires ThreadRefs(s, s.threads[u]) && DroppedIsLive(s, u)
    ensures u in s'.threads && PersonOf(s', u) == PersonOf(s, u).(inbox := Inbox(s', u))
  {
    OtherSeatsStay(s, s', t, u);
    SpokenOfOther(s, s', t, u);
    TextsStay(s, s', t, s.threads[u].dropped);
  }
}
