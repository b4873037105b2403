/** The server's replies on the wire: which of them arrive as the one line that they
    are, and what a sender's client hears. */
module Replies {
  import opened Basics
  import opened ClientUtil
  import opened Messages
  import opened Connections
  import opened Screen
  import opened Session
  import opened Chat
  import opened ChatLedger
  import opened ChatRuns
  import ChatTheorems
  import opened EndToEnd
  import opened Client

  /** One receive gives this message, its trailing blanks apart, and nothing else is
      taken from the stream. */
  predicate Arrives(m: Message, later: string) {
    Received(Wire(m) + later) == Ok(Echo(m)) && Remaining(Wire(m) + later) == later
  }

  /** For a message without newline and NUL its length decides. */
  lemma ArrivesIfFits(m: Message, later: string)
    requires FitForWire(m)
    ensures Arrives(m, later) <==> |Encoded(m)| <= MAX_LEN
  {
    OneSendIsOneReceive(m, later);
  }

  /** A room name of up to 231 bytes. */
  lemma JoinedReplyArrives(room: string, later: string)
    requires ValidRoomName(room)
    ensures Arrives(JoinedReply(room), later) <==> |room| <= 231
  {
    ValidNameIsPlain(room);
    JoinedReplyIsFit(room);
    ArrivesIfFits(JoinedReply(room), later);
  }

  lemma JoinedReplyIsFit(room: string)
    requires Clean(room)
    ensures FitForWire(JoinedReply(room)) && |Encoded(JoinedReply(room))| == 24 + |room|
  {
    assert Wordy("succesfully joined ");
  }

  /** A user name and a room name of up to 232 bytes together. */
  lemma LeftReplyArrives(user: string, room: string, later: string)
    requires CleanText(user) && ValidRoomName(room)
    ensures Arrives(LeftReply(user, room), later) <==> |user| + |room| <= 232
  {
    ValidNameIsPlain(room);
    LeftReplyIsFit(user, room);
    ArrivesIfFits(LeftReply(user, room), later);
  }

  lemma LeftReplyIsFit(user: string, room: string)
    requires Clean(user) && Clean(room)
    ensures FitForWire(LeftReply(user, room)) && |Encoded(LeftReply(user, room))| == 23 + |user| + |room|
  {
    assert Wordy(" has left the room ");
  }

  /** A reply whose text is fixed. */
  predicate Fixed(m: Message) {
    && (m.tag == TAG_OK || m.tag == TAG_ERR) && 0 < |m.data| <= 100 && Wordy(m.data)
    && m.data[|m.data| - 1] != ' '
  }

  lemma OkReplies()
    ensures Fixed(SENT_REPLY) && Fixed(QUIT_REPLY)
  {
  }

  lemma BadRequestReplies()
    ensures Fixed(BAD_LINE_REPLY) && Fixed(BAD_TAG_REPLY)
  {
  }

  lemma RoomReplies()
    ensures Fixed(BAD_ROOM_REPLY) && Fixed(NO_ROOM_REPLY)
  {
  }

  lemma EndReplies()
    ensures Fixed(CLOSED_REPLY) && Fixed(EMPTY_REPLY)
  {
  }

  lemma JoinReply()
    ensures Fixed(JOINED_ROOM_REPLY)
  {
  }

  lemma NoJoinReply()
    ensures Fixed(NO_JOIN_REPLY)
  {
  }

  /** Every reply of both chat loops that names neither a user nor a room. */
  lemma FixedReplies(m: Message)
    requires m in [SENT_REPLY, QUIT_REPLY, BAD_LINE_REPLY, BAD_TAG_REPLY, BAD_ROOM_REPLY, NO_ROOM_REPLY,
                   CLOSED_REPLY, EMPTY_REPLY, JOINED_ROOM_REPLY, NO_JOIN_REPLY]
    ensures Fixed(m)
  {
    OkReplies();
    BadRequestReplies();
    RoomReplies();
    EndReplies();
    JoinReply();
    NoJoinReply();
  }

  lemma FixedIsFit(m: Message)
    requires Fixed(m)
    ensures FitForWire(m) && Echo(m) == m && |Encoded(m)| <= MAX_LEN
  {
    RTrimFixpoint(m.data);
  }

  lemma SenderRepliesAreFit()
    ensures FitForWire(SENT_REPLY) && FitForWire(QUIT_REPLY) && FitForWire(CLOSED_REPLY)
    ensures FitForWire(BAD_LINE_REPLY) && FitForWire(BAD_TAG_REPLY)
    ensures FitForWire(BAD_ROOM_REPLY) && FitForWire(NO_ROOM_REPLY)
  {
    OkReplies();
    BadRequestReplies();
    RoomReplies();
    EndReplies();
  }

  /** Always. */
  lemma FixedReplyArrives(m: Message, later: string)
    requires Fixed(m)
    ensures Arrives(m, later) && Echo(m) == m
  {
    FixedIsFit(m);
    ArrivesIfFits(m, later);
  }

  // ---- What a sender's client hears

  lemma {:induction false} FoldRoomIsValid(user: string, rs: seq<Request>)
    ensures Fold(user, rs).room.Some? ==> ValidRoomName(Fold(user, rs).room.value)
  {
    if rs != [] {
      FoldRoomIsValid(user, rs[..|rs| - 1]);
    }
  }

  /** A turn's replies can be put on the wire. */
  lemma TurnIsFit(s: Standing, user: string, r: Request)
    requires Clean(user) && (s.room.Some? ==> Clean(s.room.value))
    requires forall m :: m in s.replies ==> FitForWire(m)
    ensures forall m :: m in Turn(s, user, r).replies ==> FitForWire(m)
  {
    SenderRepliesAreFit();
    if r.Line? && r.m.tag == TAG_JOIN && ValidRoomName(r.m.data) {
      ValidNameIsPlain(r.m.data);
      JoinedReplyIsFit(r.m.data);
    }
    if s.room.Some? {
      LeftReplyIsFit(user, s.room.value);
    }
  }

  lemma {:induction false} FoldIsFit(user: string, rs: seq<Request>)
    requires Clean(user)
    ensures forall m :: m in Fold(user, rs).replies ==> FitForWire(m)
  {
    if rs != [] {
      var before := rs[..|rs| - 1];
      FoldIsFit(user, before);
      FoldRoomIsValid(user, before);
      if Fold(user, before).room.Some? {
        ValidNameIsPlain(Fold(user, before).room.value);
      }
      TurnIsFit(Fold(user, before), user, rs[|rs| - 1]);
    }
  }

  lemma SenderIsFit(s: State, t: Tid)
    requires Reachable(s) && t in s.threads && s.threads[t].role.Sender?
    requires !s.threads[t].pc.Welcome? && !s.threads[t].pc.Refused?
    ensures forall m :: m in s.threads[t].sent ==> FitForWire(m)
  {
    var th := s.threads[t];
    NameIsClean(s, t);
    ChatTheorems.SenderSessionIsFold(s, t);
    FoldIsFit(th.username, th.requests);
    WelcomeIsClean(th.username);
    var all := [WelcomeReply(th.username)] + Fold(th.username, th.requests).replies;
    forall m | m in th.sent ensures FitForWire(m) {
      assert m in all;
    }
  }

  /** A sender's client that receives once for each reply hears every reply, in order,
      and is not left with anything, exactly when every reply fits on its line. */
  lemma SenderHearsReplies(s: State, t: Tid, later: string)
    requires Reachable(s) && t in s.threads && s.threads[t].role.Sender?
    requires !s.threads[t].pc.Welcome? && !s.threads[t].pc.Refused?
    ensures var sent := s.threads[t].sent;
            var fits := forall m :: m in sent ==> |Encoded(m)| <= MAX_LEN;
            && (fits <==> RemainingAll(WireAll(sent) + later, |sent|) == later)
            && (fits ==> ReceivedAll(WireAll(sent) + later, |sent|) == Echoes(sent))
  {
    SenderIsFit(s, t);
    ConversationNeedsFit(WireAll(s.threads[t].sent) + later, s.threads[t].sent, later);
  }

  /** A room name one byte longer than that: the server accepts the join, the client
      hears that it has joined, and what it hears next is not the next reply. */
  lemma OneReplyBehind(room: string, next: Message)
    requires |room| == 232 && forall c :: c in room ==> c == 'x'
    ensures Receivable(Message(TAG_JOIN, room)) && ValidRoomName(room)
    ensures ReceivedAll(Wire(JoinedReply(room)) + Wire(next), 2) == [Ok(JoinedReply(room)), Invalid]
  {
    OnlyXRoom(room);
    NextIsInvalid(room, Wire(next));
    TwoReceipts(Wire(JoinedReply(room)) + Wire(next));
  }

  lemma TwoReceipts(stream: string)
    ensures ReceivedAll(stream, 2) == [Received(stream), Received(Remaining(stream))]
  {
    assert ReceivedAll(Remaining(stream), 1) == [Received(Remaining(stream))] + [];
  }

  lemma OnlyXRoom(room: string)
    requires |room| == 232 && forall c :: c in room ==> c == 'x'
    ensures Receivable(Message(TAG_JOIN, room)) && ValidRoomName(room)
  {
    assert room[|room| - 1] in room;
    RTrimFixpoint(room);
    forall i | 0 <= i < |room| ensures IsAlnum(room[i]) {
      assert room[i] in room;
    }
  }

  lemma NextIsInvalid(room: string, later: string)
    requires ValidRoomName(room) && |room| == 232
    ensures var stream := Wire(JoinedReply(room)) + later;
            Received(stream) == Ok(JoinedReply(room)) && Received(Remaining(stream)) == Invalid
  {
    var m := JoinedReply(room);
    ValidNameIsPlain(room);
    JoinedReplyIsFit(room);
    RTrimFixpoint(m.data);
    OneByteTooMany(m, later);
    EmptyLineIsInvalid(later);
  }
}
