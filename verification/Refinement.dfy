/** The interleaved server refines the atomic one: each action of a thread is one
    atomic event or none. A broadcast happens, for everyone at once, when it gets
    the lock of its room. */
module Refinement {
  import opened Basics
  import opened Messages
  import opened Session
  import opened Chat
  import opened ChatSteps
  import opened ChatInvariants
  import opened ChatMessages
  import opened ChatLedger
  import opened ChatSessions
  import opened ChatStreams
  import opened ChatRuns
  import ChatTheorems
  import opened AtomicChat
  import opened Abstraction

  // ---- The one who acts

  /** What the invariants say about the acting thread. */
  predicate ActorOk(s: State, t: Tid) {
    && t in s.threads && t in s.queues
    && ThreadOk(s, t) && SpokenAt(s, t) && FlowAt(s, t)
  }

  /** Nothing due means everything told. */
  lemma ToldIsScript(s: State, t: Tid)
    requires ActorOk(s, t) && s.threads[t].role.Sender? && s.threads[t].pc.Idle?
    ensures PersonOf(s, t).told == Script(PersonOf(s, t))
    ensures !Fold(s.threads[t].username, s.threads[t].requests).over && s.threads[t].sent != []
  {
    var th := s.threads[t];
    assert View(s, th) == Welcomed(th.username, Fold(th.username, th.requests));
    assert th.sent + [] == th.sent;
  }

  /** What is told at once is the beginning of what the session prescribes. */
  lemma SenderAsks(s: State, a: Action)
    requires Enabled(s, a) && a.Hear? && ActorOk(s, a.t) && s.threads[a.t].role.Sender?
    requires ThreadRefs(s, s.threads[a.t])
    ensures MayAsk(PersonOf(s, a.t), a.r, AtOnce(s.threads[a.t], a.r))
  {
    var th := s.threads[a.t];
    ToldIsScript(s, a.t);
    AfterAsking(s, th, a.r);
  }

  lemma AfterAsking(s: State, th: Thread, r: Request)
    requires th.pc.Idle? && View(s, th) == Welcomed(th.username, Fold(th.username, th.requests))
    requires th.room.Some? ==> th.room.value < |s.rooms|
    ensures th.sent + AtOnce(th, r) <= [WelcomeReply(th.username)] + Fold(th.username, th.requests + [r]).replies
  {
    FoldSnoc(th.username, th.requests, r);
    DecisionFollowsFold(s, th, r);
    TurnAfterWelcome(th.username, Fold(th.username, th.requests), r);
  }

  lemma ReceiverAsks(s: State, a: Action)
    requires Enabled(s, a) && a.Hear? && ActorOk(s, a.t) && s.threads[a.t].role.Receiver?
    ensures MayAsk(PersonOf(s, a.t), a.r, AtOnce(s.threads[a.t], a.r))
  {
  }

  lemma MayWelcome(s: State, a: Action)
    requires Enabled(s, a) && a.SendWelcome? && ActorOk(s, a.t)
    ensures MayAnswer(PersonOf(s, a.t), WelcomeReply(s.threads[a.t].username))
  {
  }

  lemma MayComplain(s: State, a: Action)
    requires Enabled(s, a) && a.TimedWait? && ActorOk(s, a.t)
    ensures MayAnswer(PersonOf(s, a.t), EMPTY_REPLY)
  {
    assert ReceiverAt(s, a.t);
    NothingLostYet(s, a.t);
  }

  lemma NothingLostYet(s: State, t: Tid)
    requires ActorOk(s, t) && !Ended(s.threads[t].pc)
    ensures PersonOf(s, t).lost == []
  {
    assert s.threads[t].dropped == [];
  }

  lemma SenderIsAnswered(s: State, a: Action)
    requires Enabled(s, a) && a.Acknowledge? && ActorOk(s, a.t) && s.threads[a.t].role.Sender?
    requires ThreadRefs(s, s.threads[a.t])
    ensures MayAnswer(PersonOf(s, a.t), Acknowledgement(s, s.threads[a.t]))
  {
    var th := s.threads[a.t];
    assert View(s, th) == Welcomed(th.username, Fold(th.username, th.requests));
    assert Due(s, th) == [Acknowledgement(s, th)];
    assert th.sent + [Acknowledgement(s, th)]
           == [WelcomeReply(th.username)] + Fold(th.username, th.requests).replies;
    assert (th.sent + [Acknowledgement(s, th)])[0] == WelcomeReply(th.username);
    WelcomeIsFirst(th.sent, Acknowledgement(s, th), th.username, Fold(th.username, th.requests).replies);
  }

  /** The answer that ends a turn is not the first thing that is sent. */
  lemma WelcomeIsFirst(sent: seq<Message>, m: Message, name: string, replies: seq<Message>)
    requires sent + [m] == [WelcomeReply(name)] + replies && replies != []
    ensures sent != []
  {
  }

  lemma ReceiverIsAnswered(s: State, a: Action)
    requires Enabled(s, a) && a.Acknowledge? && ActorOk(s, a.t) && s.threads[a.t].role.Receiver?
    requires ThreadNames(s, s.threads[a.t])
    ensures MayAnswer(PersonOf(s, a.t), Acknowledgement(s, s.threads[a.t]))
  {
    assert ReceiverAt(s, a.t);
  }

  lemma MaySitDown(s: State, a: Action)
    requires Enabled(s, a) && a.UpdateMembers? && s.threads[a.t].pc.Adding? && ActorOk(s, a.t)
    requires ThreadNames(s, s.threads[a.t])
    ensures MaySit(PersonOf(s, a.t), RoomOf(s, s.threads[a.t]).name)
  {
    assert AimAt(s, a.t);
  }

  lemma MayGetUp(s: State, a: Action)
    requires Enabled(s, a) && a.UpdateMembers? && s.threads[a.t].pc.Removing? && ActorOk(s, a.t)
    ensures MayRise(PersonOf(s, a.t))
  {
    assert AimAt(s, a.t) && ReceiverAt(s, a.t);
    assert Seat(s, a.t).Some?;
  }

  lemma MaySpeakUp(s: State, a: Action)
    requires Enabled(s, a) && StartsBroadcast(s, a) && ActorOk(s, a.t)
    ensures MaySpeak(PersonOf(s, a.t), s.threads[a.t].pc.text)
  {
    var th := s.threads[a.t];
    assert SpokenAt(s, a.t) && RoleAt(s, a.t);
    assert Pending(s, th) == [(RoomOf(s, th).name, th.pc.text)];
  }

  lemma MayDeliver(s: State, a: Action)
    requires Enabled(s, a) && a.Deliver? && ActorOk(s, a.t) && Inbox(s, a.t) != []
    ensures MayTake(PersonOf(s, a.t))
  {
    assert ReceiverAt(s, a.t);
    NothingLostYet(s, a.t);
  }

  lemma TalkerMay(s: State, a: Action)
    requires Enabled(s, a) && OfTalk(a) && !a.Arrive? && ActorOk(s, a.t)
    requires ThreadRefs(s, s.threads[a.t]) && ThreadNames(s, s.threads[a.t])
    requires a.Deliver? ==> Inbox(s, a.t) != []
    ensures May(PersonOf(s, a.t), EventOf(s, a))
  {
    if a.Hear? {
      if s.threads[a.t].role.Sender? {
        SenderAsks(s, a);
      } else {
        ReceiverAsks(s, a);
      }
    } else if a.SendWelcome? {
      MayWelcome(s, a);
    } else if a.TimedWait? {
      MayComplain(s, a);
    } else if a.Acknowledge? {
      if s.threads[a.t].role.Sender? {
        SenderIsAnswered(s, a);
      } else {
        ReceiverIsAnswered(s, a);
      }
    } else {
      MayDeliver(s, a);
    }
  }

  lemma SilentMay(s: State, a: Action)
    requires Enabled(s, a) && !OfTalk(a) && ActorOk(s, a.t) && ThreadNames(s, s.threads[a.t])
    ensures May(PersonOf(s, a.t), EventOf(s, a))
  {
    if a.UpdateMembers? {
      if s.threads[a.t].pc.Adding? {
        MaySitDown(s, a);
      } else {
        MayGetUp(s, a);
      }
    } else if StartsBroadcast(s, a) {
      MaySpeakUp(s, a);
    }
  }

  /** What an action does, the atomic chat allows. */
  lemma ActorMay(s: State, a: Action)
    requires Enabled(s, a) && !a.Arrive? && ActorOk(s, a.t)
    requires ThreadRefs(s, s.threads[a.t]) && ThreadNames(s, s.threads[a.t])
    requires a.Deliver? ==> Inbox(s, a.t) != []
    ensures May(PersonOf(s, a.t), EventOf(s, a))
  {
    if OfTalk(a) {
      TalkerMay(s, a);
    } else {
      SilentMay(s, a);
    }
  }

  lemma ActorTalks(s: State, a: Action)
    requires Enabled(s, a) && !a.Arrive? && Step(s, Next(s, a), a.t) && a.t in s.queues && a.t in Next(s, a).queues
    requires DroppedIsLive(s, a.t) && HandsAt(s, a.t)
    ensures a.t in Next(s, a).threads
    ensures var p, p' := PersonOf(s, a.t), PersonOf(Next(s, a), a.t);
            && p'.name == p.name && p'.role == p.role
            && p'.asked == p.asked + NewlyAsked(a) && p'.told == p.told + NewlyTold(s, a)
            && p'.lost == p.lost + Texts(s, NewlyDropped(s, a))
  {
    var s', dropped := Next(s, a), s.threads[a.t].dropped;
    HeardAndTold(s, a);
    var more := NewlyDropped(s, a);
    TextsStay(s, s', a.t, dropped + more);
    assert Texts(s, dropped + more) == Texts(s, dropped) + Texts(s, more);
  }

  /** With no broadcast beginning, nobody's list of what it has said changes. */
  lemma NobodySpeaks(s: State, s': State, t: Tid, x: Tid)
    requires Step(s, s', t) && LogOk(s) && |s'.log| <= |s.log|
    ensures Spoken(s'.rooms, s'.log, x) == Spoken(s.rooms, s.log, x) && s'.log == s.log
  {
    LogMovesByOne(s, s', t);
    SpokenKept(s, s', t, x);
  }

  /** The person that acts is changed as the event says. */
  lemma Follows(s: State, s': State, a: Action)
    requires Enabled(s, a) && !a.Arrive? && !StartsBroadcast(s, a)
    requires a.t in s.queues && a.t in s'.threads && a.t in s'.queues
    requires var p, p' := PersonOf(s, a.t), PersonOf(s', a.t);
             && p'.name == p.name && p'.role == p.role && p'.said == p.said
             && p'.asked == p.asked + NewlyAsked(a) && p'.told == p.told + NewlyTold(s, a)
             && p'.lost == p.lost + Texts(s, NewlyDropped(s, a))
    requires SeatMoves(s, s', a)
    requires InboxActs(s, s', a)
    requires May(PersonOf(s, a.t), EventOf(s, a))
    ensures PersonOf(s', a.t) == Acted(PersonOf(s, a.t), EventOf(s, a))
  {
    var p := PersonOf(s, a.t);
    assert p.asked + [] == p.asked && p.told + [] == p.told && p.lost + [] == p.lost;
    if a.Deliver? && !a.sent {
      assert Texts(s, [s.threads[a.t].pc.msg]) == [TextOf(s, s.threads[a.t].pc.msg)];
    }
  }

  // ---- All together

  /** The atomic event may happen, and leads where the step leads. */
  predicate Simulates(s: State, s': State, e: Event) {
    Possible(Abs(s), e) && Abs(s') == Happen(Abs(s), e)
  }

  /** Both states have the same users, but for the one who comes. */
  predicate SameUsers(s: State, s': State, t: Tid) {
    && s.queues.Keys == s.threads.Keys && s'.queues.Keys == s'.threads.Keys
    && s'.threads.Keys == s.threads.Keys + {t}
  }

  predicate OthersAsBefore(s: State, s': State, t: Tid) {
    SameUsers(s, s', t) &&
    forall u :: u in s.threads && u != t ==> IsAsBefore(s, s', u)
  }

  predicate IsAsBefore(s: State, s': State, u: Tid) {
    && u in s.threads && u in s.queues && u in s'.threads && u in s'.queues
    && PersonOf(s', u) == PersonOf(s, u)
  }

  lemma OneChanges(s: State, s': State, t: Tid)
    requires OthersAsBefore(s, s', t)
    ensures Abs(s') == Abs(s)[t := PersonOf(s', t)]
  {
    var w, w' := Abs(s)[t := PersonOf(s', t)], Abs(s');
    forall u | u in w ensures AgreeOn(w, w', u) {
      assert u != t ==> IsAsBefore(s, s', u);
    }
    AgreeOnAll(w, w');
  }

  lemma Unchanged(s: State, t: Tid)
    requires t in s.threads && t in s.queues
    ensures Abs(s)[t := PersonOf(s, t)] == Abs(s)
  {
  }

  lemma OtherIsAsBefore(s: State, s': State, t: Tid, u: Tid)
    requires Step(s, s', t) && LogOk(s) && u in s.threads && u in s.queues && u in s'.queues && u != t
    requires ThreadRefs(s, s.threads[u]) && DroppedIsLive(s, u)
    requires InboxMoves(s, s', t, u) && |s'.log| <= |s.log|
    ensures u in s'.threads && PersonOf(s', u) == PersonOf(s, u)
  {
    OthersLookTheSame(s, s', t, u);
  }

  lemma OthersStay(s: State, a: Action)
    requires Inv(s) && Enabled(s, a) && Step(s, Next(s, a), a.t) && Ready(Next(s, a)) && !StartsBroadcast(s, a)
    ensures OthersAsBefore(s, Next(s, a), a.t)
  {
    assert SameUsers(s, Next(s, a), a.t);
    forall u | u in s.threads && u != a.t ensures IsAsBefore(s, Next(s, a), u) {
      OtherStays(s, a, u);
    }
  }

  lemma OtherStays(s: State, a: Action, u: Tid)
    requires Inv(s) && Enabled(s, a) && Step(s, Next(s, a), a.t) && Ready(Next(s, a)) && !StartsBroadcast(s, a)
    requires u in s.threads && u != a.t
    ensures IsAsBefore(s, Next(s, a), u)
  {
    LogStarts(s, a);
    InboxStep(s, a, u);
    ActorIsOk(s, u);
    OtherIsAsBefore(s, Next(s, a), a.t, u);
  }

  lemma ActorIsOk(s: State, t: Tid)
    requires Inv(s) && t in s.threads
    ensures ActorOk(s, t) && DroppedIsLive(s, t) && HandsAt(s, t)
    ensures ThreadRefs(s, s.threads[t]) && ThreadNames(s, s.threads[t])
  {
    assert FlowAt(s, t) && SpokenAt(s, t) && ThreadOk(s, t);
    DroppedLives(s, t);
  }

  /** The acting person, when no broadcast begins. */
  lemma ActorFollows(s: State, a: Action)
    requires Inv(s) && Enabled(s, a) && Step(s, Next(s, a), a.t) && Ready(Next(s, a))
    requires !a.Arrive? && !StartsBroadcast(s, a)
    ensures ActsAsSaid(s, Next(s, a), a)
  {
    ActorIsOk(s, a.t);
    ActorInbox(s, a);
    ActorMay(s, a);
    ActorLooks(s, a);
  }

  predicate ActsAsSaid(s: State, s': State, a: Action)
    requires Enabled(s, a) && !a.Arrive?
  {
    && a.t in s.queues && a.t in s'.threads && a.t in s'.queues
    && May(PersonOf(s, a.t), EventOf(s, a))
    && PersonOf(s', a.t) == Acted(PersonOf(s, a.t), EventOf(s, a))
  }

  lemma ActorLooks(s: State, a: Action)
    requires Enabled(s, a) && Step(s, Next(s, a), a.t) && LogOk(s) && !a.Arrive? && !StartsBroadcast(s, a)
    requires a.t in s.queues && a.t in Next(s, a).queues && |Next(s, a).log| <= |s.log|
    requires DroppedIsLive(s, a.t) && HandsAt(s, a.t) && ThreadRefs(s, s.threads[a.t])
    requires InboxActs(s, Next(s, a), a)
    requires May(PersonOf(s, a.t), EventOf(s, a))
    ensures ActsAsSaid(s, Next(s, a), a)
  {
    ActorTalks(s, a);
    NobodySpeaks(s, Next(s, a), a.t, a.t);
    SeatStep(s, a);
    Follows(s, Next(s, a), a);
  }

  /** A delivery, made or failed, takes the first message of the inbox. */
  predicate InboxActs(s: State, s': State, a: Action)
    requires Enabled(s, a) && !a.Arrive?
  {
    && a.t in s.queues && a.t in s'.queues
    && if a.Deliver? then Inbox(s, a.t) == [TextOf(s, s.threads[a.t].pc.msg)] + Inbox(s', a.t)
       else Inbox(s', a.t) == Inbox(s, a.t)
  }

  lemma ActorInbox(s: State, a: Action)
    requires Inv(s) && Enabled(s, a) && Step(s, Next(s, a), a.t) && Ready(Next(s, a))
    requires !a.Arrive? && !StartsBroadcast(s, a)
    ensures |Next(s, a).log| <= |s.log| && InboxActs(s, Next(s, a), a)
  {
    LogStarts(s, a);
    InboxStep(s, a, a.t);
  }

  lemma OtherStepRefines(s: State, a: Action)
    requires Inv(s) && Enabled(s, a) && Step(s, Next(s, a), a.t) && Ready(Next(s, a))
    requires !a.Arrive? && !StartsBroadcast(s, a)
    ensures Simulates(s, Next(s, a), EventOf(s, a))
  {
    ActorFollows(s, a);
    OthersStay(s, a);
    OneChanges(s, Next(s, a), a.t);
    Unchanged(s, a.t);
    PersonalEvent(s, a);
  }

  /** Such an event is about the acting person alone. */
  lemma PersonalEvent(s: State, a: Action)
    requires Enabled(s, a) && !a.Arrive? && !StartsBroadcast(s, a) && a.t in s.queues
    requires May(PersonOf(s, a.t), EventOf(s, a)) && Abs(s)[a.t := PersonOf(s, a.t)] == Abs(s)
    ensures Possible(Abs(s), EventOf(s, a))
    ensures Happen(Abs(s), EventOf(s, a)) == Abs(s)[a.t := Acted(PersonOf(s, a.t), EventOf(s, a))]
  {
  }

  // ---- Arrivals

  lemma NewcomerLooks(s: State, s': State, t: Tid)
    requires Step(s, s', t) && RefsOk(s) && LogOk(s) && t !in s.threads && t in s'.queues
    ensures t in s'.threads
    ensures PersonOf(s', t) == Newcomer(s'.threads[t].username, s'.threads[t].role)
  {
    assert SpokenAt(s', t) by {
      NewcomerSilent(s, s', t);
    }
    NewcomerHasNothing(s, s', t);
  }

  lemma NewcomerHasNothing(s: State, s': State, t: Tid)
    requires ThreadsMove(s, s', t) && t !in s.threads
    ensures t in s'.threads && t in s'.queues && Seat(s', t) == None && Inbox(s', t) == []
  {
  }

  lemma ArriveRefines(s: State, a: Action)
    requires Inv(s) && Enabled(s, a) && Step(s, Next(s, a), a.t) && Ready(Next(s, a)) && a.Arrive?
    ensures Simulates(s, Next(s, a), EventOf(s, a))
  {
    OthersStay(s, a);
    OneChanges(s, Next(s, a), a.t);
    NewcomerLooks(s, Next(s, a), a.t);
  }

  // ---- Broadcasts

  /** Being in the room is being in its set, and rooms are told apart by name. */
  lemma SeatIsMembership(s: State, t: Tid, u: Tid)
    requires RefsOk(s) && MembersOk(s) && NamesOk(s) && t in s.threads && u in s.threads
    requires InRoom(s, s.threads[t]) && Seat(s, t).Some?
    ensures Seat(s, t) == Some(RoomOf(s, s.threads[t]).name)
    ensures Seat(s, u) == Seat(s, t) <==> u in RoomOf(s, s.threads[t]).members
  {
    var r := s.threads[t].room.value;
    assert InSet(s, u, r) <==> u in s.rooms[r].members;
  }

  lemma EntryOfStart(s: State, a: Action)
    requires Enabled(s, a) && StartsBroadcast(s, a)
    ensures var th, s' := s.threads[a.t], Next(s, a);
            && InRoom(s, th) && Member(th.pc)
            && s'.log == s.log + [Entry(th.room.value, a.t, th.username, th.pc.text, RoomOf(s, th).members)]
            && TextOfEntry(s', |s.log|) == Delivery(RoomOf(s, th).name, th.username, th.pc.text)
            && NameAt(s'.rooms, th.room.value) == RoomOf(s, th).name
  {
  }

  /** The logged broadcast is the one that the atomic chat hears of. */
  predicate LogsBroadcast(s: State, s': State, t: Tid, text: string) {
    t in s.threads && InRoom(s, s.threads[t]) && Member(s.threads[t].pc) &&
    var th := s.threads[t];
    && |s'.log| == |s.log| + 1 && s'.log[|s.log|].members == RoomOf(s, th).members
    && s'.log[|s.log|].sender == th.username
    && TextOfEntry(s', |s.log|) == Delivery(RoomOf(s, th).name, th.username, text)
  }

  lemma BroadcastReaches(s: State, s': State, t: Tid, text: string, u: Tid)
    requires RefsOk(s) && MembersOk(s) && NamesOk(s) && u in s.threads
    requires LogsBroadcast(s, s', t, text) && InboxMoves(s, s', t, u) && !LetsGo(s, s', t)
    ensures t in s.queues && u in s.queues && u in s'.queues
    ensures Inbox(s', u) == Inbox(s, u) + Hears(PersonOf(s, t), text, PersonOf(s, u))
  {
    SeatIsMembership(s, t, u);
    assert Hears(PersonOf(s, t), text, PersonOf(s, u))
           == if Starts(s, s', u) then [TextOfEntry(s', |s.log|)] else [];
    assert Inbox(s, u) + [] == Inbox(s, u);
  }

  /** What a person looks like after the broadcast by t. */
  function AfterBroadcast(s: State, t: Tid, text: string, u: Tid): Person
    requires t in s.threads && t in s.queues && u in s.threads && u in s.queues
    requires May(PersonOf(s, t), Broadcast(t, text))
  {
    var p := PersonOf(s, u);
    (if u == t then Acted(PersonOf(s, t), Broadcast(t, text)) else p).(
      inbox := p.inbox + Hears(PersonOf(s, t), text, p))
  }

  lemma SpeakerSays(s: State, a: Action)
    requires Enabled(s, a) && StartsBroadcast(s, a) && Step(s, Next(s, a), a.t) && LogOk(s)
    ensures Spoken(Next(s, a).rooms, Next(s, a).log, a.t)
            == Spoken(s.rooms, s.log, a.t) + [(RoomOf(s, s.threads[a.t]).name, s.threads[a.t].pc.text)]
  {
    var s' := Next(s, a);
    EntryOfStart(s, a);
    SpokenKept(s, s', a.t, a.t);
    SpokenSnoc(s'.rooms, s.log, s'.log[|s.log|], a.t);
  }

  lemma SpeakerLooks(s: State, a: Action)
    requires Enabled(s, a) && StartsBroadcast(s, a) && Step(s, Next(s, a), a.t) && LogOk(s)
    requires ActorOk(s, a.t) && DroppedIsLive(s, a.t) && HandsAt(s, a.t) && ThreadRefs(s, s.threads[a.t])
    requires a.t in Next(s, a).queues
    requires Inbox(Next(s, a), a.t)
             == Inbox(s, a.t) + Hears(PersonOf(s, a.t), s.threads[a.t].pc.text, PersonOf(s, a.t))
    ensures a.t in Next(s, a).threads && May(PersonOf(s, a.t), Broadcast(a.t, s.threads[a.t].pc.text))
    ensures PersonOf(Next(s, a), a.t) == AfterBroadcast(s, a.t, s.threads[a.t].pc.text, a.t)
  {
    MaySpeakUp(s, a);
    ActorTalks(s, a);
    SpeakerSays(s, a);
    SeatStep(s, a);
    var p := PersonOf(s, a.t);
    assert p.asked + [] == p.asked && p.told + [] == p.told && p.lost + Texts(s, []) == p.lost;
  }

  lemma BroadcastInbox(s: State, a: Action, u: Tid)
    requires Inv(s) && Enabled(s, a) && Step(s, Next(s, a), a.t) && Ready(Next(s, a))
    requires StartsBroadcast(s, a) && u in s.threads
    ensures a.t in s.queues && u in s.queues && u in Next(s, a).queues
    ensures Inbox(Next(s, a), u)
            == Inbox(s, u) + Hears(PersonOf(s, a.t), s.threads[a.t].pc.text, PersonOf(s, u))
  {
    EntryOfStart(s, a);
    LogStarts(s, a);
    InboxStep(s, a, u);
    BroadcastReaches(s, Next(s, a), a.t, s.threads[a.t].pc.text, u);
  }

  /** Everyone after a broadcast. */
  lemma EveryoneLooks(s: State, a: Action, u: Tid)
    requires Inv(s) && Enabled(s, a) && Step(s, Next(s, a), a.t) && Ready(Next(s, a))
    requires StartsBroadcast(s, a) && u in s.threads
    ensures Reached(s, Next(s, a), a.t, s.threads[a.t].pc.text, u)
  {
    BroadcastInbox(s, a, u);
    ActorIsOk(s, a.t);
    MaySpeakUp(s, a);
    if u == a.t {
      SpeakerLooks(s, a);
    } else {
      ActorIsOk(s, u);
      OthersLookTheSame(s, Next(s, a), a.t, u);
    }
  }

  lemma HappensTo(s: State, t: Tid, text: string, u: Tid)
    requires t in s.threads && t in s.queues && u in s.threads && u in s.queues
    requires May(PersonOf(s, t), Broadcast(t, text))
    ensures Possible(Abs(s), Broadcast(t, text)) && u in Happen(Abs(s), Broadcast(t, text))
    ensures Happen(Abs(s), Broadcast(t, text))[u] == AfterBroadcast(s, t, text, u)
  {
    assert Abs(s)[u] == PersonOf(s, u) && Abs(s)[t] == PersonOf(s, t);
  }

  predicate Reached(s: State, s': State, t: Tid, text: string, u: Tid) {
    && t in s.threads && t in s.queues && u in s.threads && u in s.queues && u in s'.threads && u in s'.queues
    && May(PersonOf(s, t), Broadcast(t, text))
    && PersonOf(s', u) == AfterBroadcast(s, t, text, u)
  }

  predicate AgreeOn(w: World, w': World, u: Tid) {
    u in w && u in w' && w[u] == w'[u]
  }

  lemma AgreeOnAll(w: World, w': World)
    requires w.Keys == w'.Keys && forall u :: u in w ==> AgreeOn(w, w', u)
    ensures w == w'
  {
    forall u | u in w ensures w[u] == w'[u] {
      assert AgreeOn(w, w', u);
    }
  }

  /** What the atomic chat says of person u is what has become of it. */
  predicate Agrees(s: State, s': State, e: Event, u: Tid) {
    Possible(Abs(s), e) && AgreeOn(Abs(s'), Happen(Abs(s), e), u)
  }

  lemma ReachedAgrees(s: State, s': State, t: Tid, text: string, u: Tid)
    requires Reached(s, s', t, text, u)
    ensures Agrees(s, s', Broadcast(t, text), u)
  {
    HappensTo(s, t, text, u);
  }

  lemma SameKeys(s: State, s': State, t: Tid, text: string)
    requires SameUsers(s, s', t) && t in s.threads && Possible(Abs(s), Broadcast(t, text))
    ensures Abs(s').Keys == s.threads.Keys == Happen(Abs(s), Broadcast(t, text)).Keys
  {
  }

  lemma AllAgree(s: State, s': State, t: Tid, text: string)
    requires SameUsers(s, s', t) && t in s.threads
    requires forall u :: u in s.threads ==> Agrees(s, s', Broadcast(t, text), u)
    ensures Simulates(s, s', Broadcast(t, text))
  {
    assert Agrees(s, s', Broadcast(t, text), t);
    SameKeys(s, s', t, text);
    var w, w' := Abs(s'), Happen(Abs(s), Broadcast(t, text));
    forall u | u in w ensures AgreeOn(w, w', u) {
      assert Agrees(s, s', Broadcast(t, text), u);
    }
    AgreeOnAll(w, w');
  }

  lemma BroadcastRefines(s: State, a: Action)
    requires Inv(s) && Enabled(s, a) && Step(s, Next(s, a), a.t) && Ready(Next(s, a))
    requires StartsBroadcast(s, a)
    ensures Simulates(s, Next(s, a), EventOf(s, a))
  {
    var s', text := Next(s, a), s.threads[a.t].pc.text;
    assert SameUsers(s, s', a.t);
    forall u | u in s.threads ensures Agrees(s, s', Broadcast(a.t, text), u) {
      EveryoneLooks(s, a, u);
      ReachedAgrees(s, s', a.t, text, u);
    }
    AllAgree(s, s', a.t, text);
  }

  /** One action of one thread is one atomic event. */
  lemma StepRefines(s: State, a: Action)
    requires Inv(s) && Enabled(s, a)
    ensures Simulates(s, Next(s, a), EventOf(s, a))
  {
    EnabledStep(s, a);
    InvKept(s, a);
    if a.Arrive? {
      ArriveRefines(s, a);
    } else if StartsBroadcast(s, a) {
      BroadcastRefines(s, a);
    } else {
      OtherStepRefines(s, a);
    }
  }

  // ---- What the two sides have in common

  /** The atomic world of a reachable state has the same users, with the names, the
      requests and the streams of their threads; each sits in the room in whose set it
      is; and one for whom nothing is under way has its deque for an inbox. */
  lemma AbsIs(s: State, u: Tid, room: string)
    requires Reachable(s)
    ensures u in Abs(s) <==> u in s.threads
    ensures u in s.threads ==>
              var p, th := Abs(s)[u], s.threads[u];
              && p.name == th.username && p.role == th.role && p.asked == th.requests && p.told == th.sent
              && |p.lost| == |th.dropped|
              && (p.seat == Some(room) <==>
                    exists r :: 0 <= r < |s.rooms| && s.rooms[r].name == room && u in s.rooms[r].members)
              && (Owed(s, u) == None && HandIn(th.pc) == None ==>
                    && u in s.queues && |p.inbox| == |s.queues[u].messages|
                    && forall i :: 0 <= i < |p.inbox| ==>
                         s.queues[u].messages[i] < |s.heap| && p.inbox[i] == s.heap[s.queues[u].messages[i]].message)
  {
    assert RefsOk(s) by {
      ReachableInv(s);
    }
    if u in s.threads {
      SeatIs(s, u, room);
      if Owed(s, u) == None && HandIn(s.threads[u].pc) == None {
        InboxIs(s, u);
      }
    }
  }

  lemma InboxIs(s: State, u: Tid)
    requires Reachable(s) && u in s.threads && u in s.queues
    requires Owed(s, u) == None && HandIn(s.threads[u].pc) == None
    ensures |Inbox(s, u)| == |s.queues[u].messages|
    ensures forall i :: 0 <= i < |Inbox(s, u)| ==>
              && s.queues[u].messages[i] < |s.heap|
              && Inbox(s, u)[i] == s.heap[s.queues[u].messages[i]].message
  {
    assert DequeAt(s, u) by {
      ReachableInv(s);
    }
    assert [] + s.queues[u].messages == s.queues[u].messages;
  }

  lemma SeatIs(s: State, u: Tid, room: string)
    requires Reachable(s) && u in s.threads
    ensures Seat(s, u) == Some(room) <==>
              exists r :: 0 <= r < |s.rooms| && s.rooms[r].name == room && u in s.rooms[r].members
  {
    var th := s.threads[u];
    if Seat(s, u) == Some(room) {
      ChatTheorems.OneRoomAtMost(s, u, th.room.value, th.room.value);
    }
    if r :| 0 <= r < |s.rooms| && s.rooms[r].name == room && u in s.rooms[r].members {
      ChatTheorems.OneRoomAtMost(s, u, r, r);
    }
  }

  /** Which event an action is. */
  lemma EventIs(s: State, a: Action)
    requires Enabled(s, a)
    ensures a.Arrive? ==> EventOf(s, a) == Come(a.t, a.username, a.role)
    ensures a.SendWelcome? && a.sent ==>
              EventOf(s, a) == Answer(a.t, Message("ok", "Welcome " + s.threads[a.t].username + "!"))
    ensures a.Hear? ==> EventOf(s, a).Ask? && EventOf(s, a).u == a.t && EventOf(s, a).r == a.r
    ensures a.UpdateMembers? && s.threads[a.t].pc.Adding? ==>
              EventOf(s, a) == Sit(a.t, RoomOf(s, s.threads[a.t]).name)
    ensures a.UpdateMembers? && s.threads[a.t].pc.Removing? ==> EventOf(s, a) == Rise(a.t)
    ensures a.LockRoom? && s.threads[a.t].pc.WantBroadcast? ==>
              EventOf(s, a) == Broadcast(a.t, s.threads[a.t].pc.text)
    ensures a.TimedWait? && !a.available ==> EventOf(s, a) == Answer(a.t, Message("err", "Empty error"))
    ensures a.Deliver? ==> EventOf(s, a) == if a.sent then Show(a.t) else Lose(a.t)
    ensures a.Acknowledge? ==> EventOf(s, a).Answer? && EventOf(s, a).u == a.t
  {
  }

  /** What the atomic chat demands, told of the threads: a sender that answers a request
      at the end of a turn goes on with what its session prescribes; whoever is put into
      a set was last asked to join that room; a broadcast is what its sender was asked
      to say next, in its room. */
  lemma StepsAreAllowed(s: State, a: Action)
    requires Reachable(s) && Enabled(s, a) && !a.Arrive?
    ensures var th := s.threads[a.t];
            && (a.Acknowledge? && th.role.Sender? ==>
                  th.sent + [Acknowledgement(s, th)]
                  <= [Message("ok", "Welcome " + th.username + "!")] + Fold(th.username, th.requests).replies)
            && (a.UpdateMembers? && th.pc.Adding? ==>
                  th.requests != [] && LastOf(th.requests) == Line(Message("join", RoomOf(s, th).name)))
            && (a.LockRoom? && th.pc.WantBroadcast? ==>
                  Spoken(s.rooms, s.log, a.t) + [(RoomOf(s, th).name, th.pc.text)] <= Asks(th.username, th.requests))
  {
    ActorIsOkNow(s, a.t);
    if a.Acknowledge? && s.threads[a.t].role.Sender? {
      SenderIsAnswered(s, a);
    } else if a.UpdateMembers? && s.threads[a.t].pc.Adding? {
      MaySitDown(s, a);
    } else if StartsBroadcast(s, a) {
      MaySpeakUp(s, a);
      assert Seat(s, a.t) == Some(RoomOf(s, s.threads[a.t]).name);
    }
  }

  lemma ActorIsOkNow(s: State, t: Tid)
    requires Reachable(s) && t in s.threads
    ensures ActorOk(s, t) && ThreadRefs(s, s.threads[t]) && ThreadNames(s, s.threads[t])
  {
    ReachableInv(s);
    ActorIsOk(s, t);
  }

  // ---- Whole runs

  function Worlds(states: seq<State>): seq<World> {
    seq(|states|, i requires 0 <= i < |states| => Abs(states[i]))
  }

  /** The event carried out at position i of a run, where every action is enabled. */
  function EventAt(states: seq<State>, actions: seq<Action>, i: nat): Event
    requires i < |actions| < |states|
  {
    if Enabled(states[i], actions[i]) then EventOf(states[i], actions[i]) else Nothing
  }

  function Events(states: seq<State>, actions: seq<Action>): seq<Event>
    requires |actions| < |states|
  {
    seq(|actions|, i requires 0 <= i < |actions| => EventAt(states, actions, i))
  }

  /** Every run of the server, seen through Abs, is a history of the atomic chat. */
  lemma RunRefines(states: seq<State>, actions: seq<Action>)
    requires Run(states, actions)
    ensures History(Worlds(states), Events(states, actions))
  {
    forall i | 0 <= i < |actions|
      ensures Possible(Abs(states[i]), EventAt(states, actions, i))
      ensures Abs(states[i + 1]) == Happen(Abs(states[i]), EventAt(states, actions, i))
    {
      InvHolds(states, actions, i);
      assert StepAt(states, actions, i);
      StepRefines(states[i], actions[i]);
    }
  }
}
