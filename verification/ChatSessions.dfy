/** What each thread does on its own account: the sender's session is the fold
    of its requests whatever the other threads do, and a receiver stays in the
    one room it joined. */
module ChatSessions {
  import opened Basics
  import opened Messages
  import opened Session
  import opened Chat
  import opened ChatSteps
  import opened ChatInvariants

  predicate SenderPc(pc: PC) {
    !(pc.FirstRequest? || pc.Waiting? || pc.WantPop? || pc.Popping? || pc.Popped? || pc.Delivering?)
  }

  predicate ReceiverPc(pc: PC) {
    && !(pc.Idle? || pc.WantBroadcast? || Broadcasting(pc) || pc.AckSend? || pc.AckLeave?)
    && (pc.WantRemove? || pc.Removing? || pc.Removed? ==> pc.after.Exit?)
  }

  predicate RoleAt(s: State, t: Tid) {
    t in s.threads ==>
      if s.threads[t].role.Sender?
      then SenderPc(s.threads[t].pc) && s.threads[t].delivered == [] && s.threads[t].dropped == []
      else ReceiverPc(s.threads[t].pc)
  }

  lemma RoleStepOfServer(s: State, a: Action)
    requires Enabled(s, a) && RoleAt(s, a.t)
    requires OfServer(a)
    ensures RoleAt(Next(s, a), a.t)
  {
  }

  lemma RoleStepOfRoom(s: State, a: Action)
    requires Enabled(s, a) && RoleAt(s, a.t)
    requires OfRoom(a)
    ensures RoleAt(Next(s, a), a.t)
  {
  }

  lemma RoleStepOfQueue(s: State, a: Action)
    requires Enabled(s, a) && RoleAt(s, a.t)
    requires OfQueue(a)
    ensures RoleAt(Next(s, a), a.t)
  {
  }

  lemma RoleStepOfTalk(s: State, a: Action)
    requires Enabled(s, a) && RoleAt(s, a.t)
    requires OfTalk(a)
    ensures RoleAt(Next(s, a), a.t)
  {
    assert a.Hear? && s.threads[a.t].pc.FirstRequest? ==> ReceiverPc(PcAt(Next(s, a), a.t));
  }

  lemma RoleStep(s: State, a: Action)
    requires Enabled(s, a) && RoleAt(s, a.t)
    ensures RoleAt(Next(s, a), a.t)
  {
    if OfServer(a) {
      RoleStepOfServer(s, a);
    } else if OfRoom(a) {
      RoleStepOfRoom(s, a);
    } else if OfQueue(a) {
      RoleStepOfQueue(s, a);
    } else {
      RoleStepOfTalk(s, a);
    }
  }

  // ---- The sender's session

  function NameOf(s: State, room: Option<Rid>): Option<string> {
    if room.Some? && room.value < |s.rooms| then Some(s.rooms[room.value].name) else None
  }

  predicate Leaving(pc: PC) {
    pc.AckLeave? || ((pc.WantRemove? || pc.Removing? || pc.Removed?) && pc.after.KeepOut?)
  }

  predicate Speaking(pc: PC) {
    pc.WantBroadcast? || Broadcasting(pc) || pc.AckSend?
  }

  /** The replies that the current turn still has to make. */
  function Due(s: State, th: Thread): seq<Message> {
    if Joining(th.pc) then [JoinedReply(th.roomName)]
    else if Leaving(th.pc) then
      if InRoom(s, th) then [LeftReply(th.username, RoomOf(s, th).name)] else []
    else if Speaking(th.pc) then [SENT_REPLY]
    else []
  }

  /** The room in which the current turn will leave the session. */
  function Heading(s: State, th: Thread): Option<string> {
    if Joining(th.pc) then Some(th.roomName)
    else if Leaving(th.pc) || Ended(th.pc) then None
    else NameOf(s, th.room)
  }

  /** The session as it stands once the current turn is finished. */
  function View(s: State, th: Thread): Standing {
    Standing(Heading(s, th), Ended(th.pc), th.sent + Due(s, th))
  }

  /** A sender's session is determined by its own requests: its replies, its room
      and its end are those of the fold, at every point of every turn. */
  predicate SessionAt(s: State, t: Tid) {
    t in s.threads && s.threads[t].role.Sender? && !s.threads[t].pc.Welcome? && !s.threads[t].pc.Refused? ==>
      View(s, s.threads[t])
      == Welcomed(s.threads[t].username, Fold(s.threads[t].username, s.threads[t].requests))
  }

  predicate UntouchedAt(s: State, t: Tid) {
    t in s.threads && s.threads[t].pc.Welcome? ==> s.threads[t].requests == [] && s.threads[t].sent == []
  }

  // ---- Steps that move nothing but the program point

  /** Two points of one turn. */
  predicate SameTurn(pc: PC, pc': PC) {
    && Joining(pc) == Joining(pc') && Leaving(pc) == Leaving(pc')
    && Speaking(pc) == Speaking(pc') && Ended(pc) == Ended(pc')
    && (pc.Idle? <==> pc'.Idle?)
    && !pc.Welcome? && !pc.Refused? && !pc.FirstRequest? && !pc.Done?
    && !pc'.Welcome? && !pc'.Refused? && !pc'.FirstRequest?
  }

  /** A step on a room or a queue stays within the turn and changes nothing of its
      thread but the program point. */
  predicate OnlyPcMoves(s: State, s': State, t: Tid) {
    t in s.threads && t in s'.threads &&
    var th, th' := s.threads[t], s'.threads[t];
    th' == th.(pc := th'.pc) && NameOf(s', th.room) == NameOf(s, th.room) && SameTurn(th.pc, th'.pc)
  }

  lemma SameTurnInRoom(s: State, a: Action)
    requires Enabled(s, a) && OfRoom(a)
    ensures SameTurn(PcAt(s, a.t), PcAt(Next(s, a), a.t))
  {
  }

  lemma SameTurnInLoop(s: State, a: Action)
    requires Enabled(s, a) && (a.Visit? || a.Push? || a.Post?)
    ensures SameTurn(PcAt(s, a.t), PcAt(Next(s, a), a.t))
  {
    var pc, pc' := PcAt(s, a.t), PcAt(Next(s, a), a.t);
    assert !Joining(pc) && !Leaving(pc) && !Ended(pc);
    assert !Joining(pc') && !Leaving(pc') && !Ended(pc');
  }

  lemma SameTurnUnderLock(s: State, a: Action)
    requires Enabled(s, a) && (a.LockQueue? || a.Pop? || a.UnlockQueue?)
    ensures SameTurn(PcAt(s, a.t), PcAt(Next(s, a), a.t))
  {
    var pc, pc' := PcAt(s, a.t), PcAt(Next(s, a), a.t);
    assert !Joining(pc) && !Leaving(pc) && !Ended(pc);
    assert !Joining(pc') && !Leaving(pc') && !Ended(pc');
  }

  lemma SameTurnInQueue(s: State, a: Action)
    requires Enabled(s, a) && OfQueue(a)
    ensures SameTurn(PcAt(s, a.t), PcAt(Next(s, a), a.t))
  {
    if a.Visit? || a.Push? || a.Post? {
      SameTurnInLoop(s, a);
    } else {
      SameTurnUnderLock(s, a);
    }
  }

  lemma OnlyPcMovesInRoom(s: State, a: Action)
    requires Enabled(s, a) && OfRoom(a)
    ensures OnlyPcMoves(s, Next(s, a), a.t)
  {
    SameTurnInRoom(s, a);
  }

  lemma OnlyPcMovesInQueue(s: State, a: Action)
    requires Enabled(s, a) && OfQueue(a)
    ensures OnlyPcMoves(s, Next(s, a), a.t)
  {
    SameTurnInQueue(s, a);
  }

  // ---- The receiver's session

  /** The answers to the login and to the join, then deliveries and complaints. */
  predicate Served(name: string, sent: seq<Message>) {
    && |sent| >= 2 && sent[0] == WelcomeReply(name) && sent[1] == JOINED_ROOM_REPLY
    && forall i :: 2 <= i < |sent| ==> sent[i] == EMPTY_REPLY || sent[i].tag == TAG_DELIVERY
  }

  /** Nothing has been sent but what is given. */
  predicate Only(th: Thread, sent: seq<Message>) {
    th.sent == sent && th.empties == 0 && th.delivered == [] && th.dropped == []
  }

  /** After a valid join: in the code between the join and its answer only the login
      has been answered; the room, once found, has the name asked for; after the
      answer every round has sent a delivery, sent a complaint, or been the last,
      and the last has lost a message. */
  predicate JoinedAs(s: State, th: Thread, name: string) {
    && th.roomName == name
    && (th.room.Some? ==> NameOf(s, th.room) == Some(name))
    && if Joining(th.pc) then Only(th, [WelcomeReply(th.username)])
       else
         && th.room.Some? && Served(th.username, th.sent)
         && |th.sent| == 2 + th.empties + |th.delivered|
         && (Ended(th.pc) ==> th.dropped != [])
  }

  /** A receiver's session: one request; a refusal and the end, or a room and a
      delivery loop. */
  predicate ReceiverAt(s: State, t: Tid) {
    t in s.threads && s.threads[t].role.Receiver? ==>
      var th := s.threads[t];
      if th.pc.Welcome? || th.pc.Refused? then
        th.requests == [] && Only(th, []) && th.room.None?
      else if th.pc.FirstRequest? then
        th.requests == [] && Only(th, [WelcomeReply(th.username)]) && th.room.None?
      else
        && |th.requests| == 1
        && if ValidJoin(th.requests[0]) then JoinedAs(s, th, th.requests[0].m.data)
           else
             && th.pc.Done? && th.room.None?
             && Only(th, [WelcomeReply(th.username), RefusalOf(th.requests[0])])
  }

  lemma ReceiverRequestStep(s: State, a: Action)
    requires Enabled(s, a) && RoleAt(s, a.t) && ReceiverAt(s, a.t)
    requires a.Arrive? || a.SendWelcome? || a.Hear?
    ensures ReceiverAt(Next(s, a), a.t)
  {
  }

  lemma ReceiverMovesOn(s: State, s': State, t: Tid)
    requires OnlyPcMoves(s, s', t) && ReceiverAt(s, t)
    ensures ReceiverAt(s', t)
  {
  }

  lemma ReceiverServerStep(s: State, a: Action)
    requires Enabled(s, a) && RoleAt(s, a.t) && ReceiverAt(s, a.t)
    requires OfServer(a) && ThreadNames(s, s.threads[a.t])
    ensures ReceiverAt(Next(s, a), a.t)
  {
    var pc, pc' := PcAt(s, a.t), PcAt(Next(s, a), a.t);
    assert Joining(pc) && Joining(pc') && !pc'.Welcome? && !pc'.Refused? && !pc'.FirstRequest?;
  }

  /** One round of the delivery loop sends m, or nothing. */
  predicate RoundMoves(s: State, s': State, t: Tid, m: Message) {
    t in s.threads && t in s'.threads &&
    var th, th' := s.threads[t], s'.threads[t];
    && th'.requests == th.requests && th'.roomName == th.roomName && th'.role == th.role
    && th'.username == th.username && (th'.pc == WantRemove(Exit) ==> th'.dropped != [])
    && th'.room == th.room && NameOf(s', th.room) == NameOf(s, th.room)
    && (th.pc.Waiting? || th.pc.Delivering?)
    && (th'.pc.Waiting? || th'.pc.WantPop? || th'.pc == WantRemove(Exit))
    && (m == EMPTY_REPLY || m.tag == TAG_DELIVERY)
    && (th'.sent == th.sent || th'.sent == th.sent + [m])
    && |th'.sent| + th.empties + |th.delivered| == |th.sent| + th'.empties + |th'.delivered|
  }

  function RoundMessage(s: State, a: Action): Message
    requires Enabled(s, a) && (a.TimedWait? || a.Deliver?)
  {
    if a.TimedWait? then EMPTY_REPLY else s.heap[s.threads[a.t].pc.msg].message
  }

  lemma RoundStep(s: State, a: Action)
    requires Enabled(s, a) && (a.TimedWait? || a.Deliver?)
    requires a.Deliver? ==> RoundMessage(s, a).tag == TAG_DELIVERY
    ensures RoundMoves(s, Next(s, a), a.t, RoundMessage(s, a))
  {
  }

  lemma ReceiverRound(s: State, s': State, t: Tid, m: Message)
    requires RoundMoves(s, s', t, m) && ReceiverAt(s, t)
    ensures ReceiverAt(s', t)
  {
  }

  lemma ReceiverAnswerStep(s: State, a: Action)
    requires Enabled(s, a) && RoleAt(s, a.t) && ReceiverAt(s, a.t)
    requires a.Acknowledge? && ThreadNames(s, s.threads[a.t])
    ensures ReceiverAt(Next(s, a), a.t)
  {
  }

  lemma ReceiverStep(s: State, a: Action)
    requires Enabled(s, a) && RoleAt(s, a.t) && ReceiverAt(s, a.t)
    requires a.t in s.threads ==> ThreadNames(s, s.threads[a.t])
    requires a.Deliver? ==> s.heap[s.threads[a.t].pc.msg].message.tag == TAG_DELIVERY
    ensures ReceiverAt(Next(s, a), a.t)
  {
    if OfServer(a) {
      ReceiverServerStep(s, a);
    } else if OfRoom(a) {
      OnlyPcMovesInRoom(s, a);
      ReceiverMovesOn(s, Next(s, a), a.t);
    } else if OfQueue(a) {
      OnlyPcMovesInQueue(s, a);
      ReceiverMovesOn(s, Next(s, a), a.t);
    } else if a.TimedWait? || a.Deliver? {
      RoundStep(s, a);
      ReceiverRound(s, Next(s, a), a.t, RoundMessage(s, a));
    } else if a.Acknowledge? {
      ReceiverAnswerStep(s, a);
    } else {
      ReceiverRequestStep(s, a);
    }
  }

  // ---- What a turn is about

  function LastOf(rs: seq<Request>): Request
    requires rs != []
  {
    rs[|rs| - 1]
  }

  /** A join under way is the one last asked for; a sender that leaves or ends was
      last asked to. */
  predicate AimAt(s: State, t: Tid) {
    t in s.threads ==>
      var th := s.threads[t];
      && (Joining(th.pc) ==>
            th.requests != [] && ValidJoin(LastOf(th.requests)) && LastOf(th.requests).m.data == th.roomName)
      && (th.role.Sender? && Leaving(th.pc) ==> th.requests != [] && IsLeave(LastOf(th.requests)))
      && (th.role.Sender? && Ended(th.pc) ==> th.requests != [] && Ends(LastOf(th.requests)))
  }

  lemma AimOfServer(s: State, a: Action)
    requires Enabled(s, a) && OfServer(a) && AimAt(s, a.t)
    ensures AimAt(Next(s, a), a.t)
  {
  }

  lemma AimMovesOn(s: State, s': State, t: Tid)
    requires OnlyPcMoves(s, s', t) && AimAt(s, t)
    ensures AimAt(s', t)
  {
  }

  lemma AimOfHear(s: State, a: Action)
    requires Enabled(s, a) && a.Hear? && RoleAt(s, a.t)
    ensures AimAt(Next(s, a), a.t)
  {
  }

  lemma AimOfTalk(s: State, a: Action)
    requires Enabled(s, a) && OfTalk(a) && !a.Hear? && RoleAt(s, a.t)
    ensures AimAt(Next(s, a), a.t)
  {
  }

  lemma AimStep(s: State, a: Action)
    requires Enabled(s, a) && RoleAt(s, a.t) && AimAt(s, a.t)
    ensures AimAt(Next(s, a), a.t)
  {
    if OfServer(a) {
      AimOfServer(s, a);
    } else if OfRoom(a) {
      OnlyPcMovesInRoom(s, a);
      AimMovesOn(s, Next(s, a), a.t);
    } else if OfQueue(a) {
      OnlyPcMovesInQueue(s, a);
      AimMovesOn(s, Next(s, a), a.t);
    } else if a.Hear? {
      AimOfHear(s, a);
    } else {
      AimOfTalk(s, a);
    }
  }

  // ---- Every session

  predicate ThreadOk(s: State, t: Tid) {
    RoleAt(s, t) && UntouchedAt(s, t) && SessionAt(s, t) && ReceiverAt(s, t) && AimAt(s, t)
  }

  ghost predicate SessionsOk(s: State) {
    forall t: nat :: ThreadOk(s, t)
  }

  lemma UntouchedStep(s: State, a: Action)
    requires Enabled(s, a)
    ensures UntouchedAt(Next(s, a), a.t)
  {
  }

  /** A sender's turn, decided: what OnRequest has chosen leads to where the fold goes. */
  lemma DecisionFollowsFold(s: State, th: Thread, r: Request)
    requires th.pc.Idle? && (th.room.Some? ==> th.room.value < |s.rooms|)
    ensures var d := OnRequest(th.room, th.roomName, r);
            View(s, th.(pc := d.pc, roomName := d.roomName, sent := th.sent + d.said, requests := th.requests + [r]))
            == Turn(View(s, th), th.username, r)
  {
    assert th.sent + [BAD_LINE_REPLY, BAD_TAG_REPLY] == th.sent + [BAD_LINE_REPLY] + [BAD_TAG_REPLY];
  }

  lemma SessionHear(s: State, t: Tid, r: Request)
    requires Enabled(s, Hear(t, r)) && RoleAt(s, t) && SessionAt(s, t) && ThreadRefs(s, s.threads[t])
    ensures SessionAt(Next(s, Hear(t, r)), t)
  {
    var th, s' := s.threads[t], Next(s, Hear(t, r));
    if th.role.Sender? {
      assert th.pc.Idle?;
      FoldSnoc(th.username, th.requests, r);
      DecisionFollowsFold(s, th, r);
      TurnAfterWelcome(th.username, Fold(th.username, th.requests), r);
      var d := OnRequest(th.room, th.roomName, r);
      assert s'.threads[t]
             == th.(pc := d.pc, roomName := d.roomName, sent := th.sent + d.said, requests := th.requests + [r]);
      assert View(s', s'.threads[t]) == View(s, s'.threads[t]);
    }
  }

  lemma SessionMovesOn(s: State, s': State, t: Tid)
    requires OnlyPcMoves(s, s', t) && SessionAt(s, t)
    ensures SessionAt(s', t)
  {
  }

  lemma SessionOtherStep(s: State, a: Action)
    requires Enabled(s, a) && !OfRoom(a) && !OfQueue(a) && !a.Hear?
    requires RoleAt(s, a.t) && SessionAt(s, a.t) && UntouchedAt(s, a.t)
    requires a.t in s.threads ==> ThreadRefs(s, s.threads[a.t]) && ThreadNames(s, s.threads[a.t])
    ensures SessionAt(Next(s, a), a.t)
  {
  }

  lemma SessionStep(s: State, a: Action)
    requires Enabled(s, a) && RoleAt(s, a.t) && SessionAt(s, a.t) && UntouchedAt(s, a.t)
    requires a.t in s.threads ==> ThreadRefs(s, s.threads[a.t]) && ThreadNames(s, s.threads[a.t])
    ensures SessionAt(Next(s, a), a.t)
  {
    if a.Hear? {
      SessionHear(s, a.t, a.r);
    } else if OfRoom(a) {
      OnlyPcMovesInRoom(s, a);
      SessionMovesOn(s, Next(s, a), a.t);
    } else if OfQueue(a) {
      OnlyPcMovesInQueue(s, a);
      SessionMovesOn(s, Next(s, a), a.t);
    } else {
      SessionOtherStep(s, a);
    }
  }

  /** Nobody's session depends on the steps of others. */
  lemma OthersSessions(s: State, s': State, x: Tid)
    requires x in s.threads && x in s'.threads && s'.threads[x] == s.threads[x]
    requires NameOf(s', s.threads[x].room) == NameOf(s, s.threads[x].room)
    requires ThreadOk(s, x)
    ensures ThreadOk(s', x)
  {
  }

  lemma SessionsKept(s: State, s': State, t: Tid)
    requires Step(s, s', t) && RefsOk(s) && SessionsOk(s)
    requires ThreadOk(s', t)
    ensures SessionsOk(s')
  {
    RoomNamesStay(s, s', t);
    forall x: nat ensures ThreadOk(s', x) {
      if x in s.threads && x != t {
        assert ThreadRefs(s, s.threads[x]);
        assert ThreadOk(s, x);
        OthersSessions(s, s', x);
      }
    }
  }

  // ---- The receiver's room

  /** Before the receiver's thread has found its room. */
  predicate Early(pc: PC) {
    pc.Welcome? || pc.FirstRequest? || pc.WantServer? || pc.Finding? || pc.Found?
  }

  predicate SettledAt(s: State, u: Tid, e: nat) {
    e < |s.log| && u in s.log[e].members && u in s.threads && s.threads[u].role.Receiver? ==>
      s.threads[u].room == Some(s.log[e].room) && !Early(s.threads[u].pc)
  }

  /** Every broadcast that could reach a receiver is of the one room it joined. */
  ghost predicate SettledOk(s: State) {
    forall u: nat, e: nat :: SettledAt(s, u, e)
  }

  predicate StaysSettled(s: State, s': State, t: Tid) {
    t in s.threads && t in s'.threads && s.threads[t].role.Receiver? && !Early(s.threads[t].pc) ==>
      s'.threads[t].room == s.threads[t].room && !Early(s'.threads[t].pc)
  }

  lemma StaysSettledStep(s: State, a: Action)
    requires Enabled(s, a) && RoleAt(s, a.t)
    ensures StaysSettled(s, Next(s, a), a.t)
  {
  }

  lemma SettledKept(s: State, s': State, t: Tid)
    requires Step(s, s', t) && RefsOk(s) && MembersOk(s) && SettledOk(s) && StaysSettled(s, s', t)
    requires forall e: nat :: e < |s.log| ==> s.log[e].members <= s.threads.Keys
    ensures SettledOk(s')
  {
    forall u: nat, e: nat ensures SettledAt(s', u, e) {
      assert SettledAt(s, u, e);
      if e == |s.log| && e < |s'.log| && u in s'.log[e].members {
        assert InSet(s, u, s'.log[e].room);
      }
    }
  }
}
