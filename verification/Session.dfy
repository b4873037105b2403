/** One client's session as a fold over what it sent: the rules that
    chat_with_sender (server.cpp) follows, with no threads and no locks. */
module Session {
  import opened Basics
  import opened Messages

  /** What a client logs in as. */
  datatype Role = Sender | Receiver

  /** What a server thread gets from Connection::receive. */
  datatype Request = Line(m: Message) | Malformed | Closed

  predicate IsAlnum(c: char) {
    'a' <= c <= 'z' || 'A' <= c <= 'Z' || '0' <= c <= '9'
  }

  /** Server::isValidRoomName accepts the empty name: its length test cannot fail. */
  predicate ValidRoomName(name: string) {
    forall i :: 0 <= i < |name| ==> IsAlnum(name[i])
  }

  /** The bytes it accepts, by number: the ten digits, the upper-case and the
      lower-case letters of ASCII. */
  lemma RoomNamesAre(name: string)
    ensures ValidRoomName(name) <==>
              forall i :: 0 <= i < |name| ==>
                || 48 <= name[i] as int <= 57 || 65 <= name[i] as int <= 90 || 97 <= name[i] as int <= 122
  {
  }

  method IsValidRoomName(name: string) returns (ok: bool)
    ensures ok <==> ValidRoomName(name)
    ensures ok <==>
              forall i :: 0 <= i < |name| ==>
                || 48 <= name[i] as int <= 57 || 65 <= name[i] as int <= 90 || 97 <= name[i] as int <= 122
  {
    if |name| < 0 {
      return false;
    }
    for i := 0 to |name|
      invariant ValidRoomName(name[..i])
    {
      if !IsAlnum(name[i]) {
        return false;
      }
      assert name[..i + 1] == name[..i] + [name[i]];
    }
    assert name[..|name|] == name;
    return true;
  }

  function WelcomeReply(name: string): Message {
    Message(TAG_OK, "Welcome " + name + "!")
  }

  function JoinedReply(room: string): Message {
    Message(TAG_OK, "succesfully joined " + room + "!")
  }

  function LeftReply(user: string, room: string): Message {
    Message(TAG_OK, user + " has left the room " + room)
  }

  const SENT_REPLY := Message(TAG_OK, "message was sent to all users")
  const QUIT_REPLY := Message(TAG_OK, "quit")
  const NO_ROOM_REPLY := Message(TAG_ERR, "not in any room")
  const BAD_ROOM_REPLY := Message(TAG_ERR, "invalid room name")
  const BAD_LINE_REPLY := Message(TAG_ERR, "invalid message")
  const BAD_TAG_REPLY := Message(TAG_ERR, "invalid message tag")
  const CLOSED_REPLY := Message(TAG_ERR, "EOF or Error")

  const JOINED_ROOM_REPLY := Message(TAG_OK, "succesfully joined room")
  const NO_JOIN_REPLY := Message(TAG_ERR, "need to send a join message first")
  const EMPTY_REPLY := Message(TAG_ERR, "Empty error")

  /** The sender's side of the conversation so far: the room it is in, whether
      the loop has ended, and every reply the server has tried to send. */
  datatype Standing = Standing(room: Option<string>, over: bool, replies: seq<Message>)

  const START := Standing(None, false, [])

  function Reply(s: Standing, m: Message): Standing {
    s.(replies := s.replies + [m])
  }

  /** One turn of the loop. A malformed line is answered twice: its own branch
      does not leave the turn, and its tag has been set to "err". */
  function Turn(s: Standing, user: string, r: Request): Standing {
    if s.over then s
    else match r
      case Malformed => Reply(Reply(s, BAD_LINE_REPLY), BAD_TAG_REPLY)
      case Closed => Reply(s, CLOSED_REPLY).(room := None, over := true)
      case Line(m) =>
        if m.tag == TAG_JOIN then
          if ValidRoomName(m.data) then Reply(s, JoinedReply(m.data)).(room := Some(m.data))
          else Reply(s, BAD_ROOM_REPLY)
        else if m.tag == TAG_LEAVE then
          if s.room.None? then Reply(s, NO_ROOM_REPLY)
          else Reply(s, LeftReply(user, s.room.value)).(room := None)
        else if m.tag == TAG_QUIT then Reply(s, QUIT_REPLY).(room := None, over := true)
        else if m.tag == TAG_SENDALL then
          if s.room.None? then Reply(s, NO_ROOM_REPLY) else Reply(s, SENT_REPLY)
        else Reply(s, BAD_TAG_REPLY)
  }

  function Fold(user: string, rs: seq<Request>): Standing {
    if rs == [] then START
    else Turn(Fold(user, rs[..|rs| - 1]), user, rs[|rs| - 1])
  }

  lemma FoldSnoc(user: string, rs: seq<Request>, r: Request)
    ensures Fold(user, rs + [r]) == Turn(Fold(user, rs), user, r)
  {
    assert (rs + [r])[..|rs|] == rs;
  }

  predicate Ends(r: Request) {
    r.Closed? || (r.Line? && r.m.tag == TAG_QUIT)
  }

  /** How many replies one request earns. */
  function Cost(r: Request): nat {
    if r.Malformed? then 2 else 1
  }

  function TotalCost(rs: seq<Request>): nat {
    if rs == [] then 0 else TotalCost(rs[..|rs| - 1]) + Cost(rs[|rs| - 1])
  }

  lemma {:induction false} OverOnlyByEnding(user: string, rs: seq<Request>)
    ensures Fold(user, rs).over <==> exists r :: r in rs && Ends(r)
  {
    if rs != [] {
      var before, last := rs[..|rs| - 1], rs[|rs| - 1];
      OverOnlyByEnding(user, before);
      assert rs == before + [last];
      if r :| r in before && Ends(r) {
        assert r in rs;
      }
      if Ends(last) {
        assert last in rs;
      }
    }
  }

  /** While the loop runs, the replies number the well-formed lines plus twice
      the malformed ones. */
  lemma {:induction false} ReplyCount(user: string, rs: seq<Request>)
    requires rs == [] || forall r :: r in rs[..|rs| - 1] ==> !Ends(r)
    ensures |Fold(user, rs).replies| == TotalCost(rs)
  {
    if rs != [] {
      var before := rs[..|rs| - 1];
      OverOnlyByEnding(user, before);
      if before != [] {
        forall r | r in before[..|before| - 1] ensures !Ends(r) {
          assert r in before;
        }
      }
      ReplyCount(user, before);
    }
  }

  predicate ValidJoin(r: Request) {
    r.Line? && r.m.tag == TAG_JOIN && ValidRoomName(r.m.data)
  }

  /** How a receiver's thread answers a first request that is not a valid join. */
  function RefusalOf(r: Request): Message {
    match r
    case Malformed => BAD_LINE_REPLY
    case Closed => CLOSED_REPLY
    case Line(m) => if m.tag != TAG_JOIN then NO_JOIN_REPLY else BAD_ROOM_REPLY
  }

  predicate IsLeave(r: Request) {
    r.Line? && r.m.tag == TAG_LEAVE
  }

  predicate LastJoin(rs: seq<Request>, i: int, name: string) {
    && 0 <= i < |rs| && ValidJoin(rs[i]) && rs[i].m.data == name
    && forall j :: i < j < |rs| ==> !ValidJoin(rs[j]) && !IsLeave(rs[j])
  }

  /** The room after a history that has not ended: that of the last valid join
      with no later leave. An invalid join changes nothing. */
  lemma {:induction false} RoomIsLastJoin(user: string, rs: seq<Request>, name: string)
    requires forall r :: r in rs ==> !Ends(r)
    ensures Fold(user, rs).room == Some(name) <==> exists i :: LastJoin(rs, i, name)
  {
    if rs != [] {
      var before, k := rs[..|rs| - 1], |rs| - 1;
      OverOnlyByEnding(user, before);
      RoomIsLastJoin(user, before, name);
      if ValidJoin(rs[k]) {
        assert LastJoin(rs, k, rs[k].m.data);
      } else if !IsLeave(rs[k]) {
        forall i ensures LastJoin(rs, i, name) <==> LastJoin(before, i, name) {
        }
        assert !Ends(rs[k]);
        if i :| LastJoin(before, i, name) {
          assert LastJoin(rs, i, name);
        }
        if i :| LastJoin(rs, i, name) {
          assert LastJoin(before, i, name);
        }
      }
    }
  }

  /** The replies to a request are those of its kind, the last of them as given. */
  predicate Earns(user: string, rs: seq<Request>, r: Request, earned: seq<Message>) {
    Fold(user, rs + [r]).replies == Fold(user, rs).replies + earned
  }

  /** Every reply that a sender can earn, word for word. A join is answered `ok`
      exactly when its room name consists of letters and digits, and the answer names
      the room; a leave names the user and then the room it has left; a quit is
      answered `ok`; an unknown tag, a line that is no message, and the end of the
      connection earn nothing but errors. */
  lemma RepliesAre(user: string, rs: seq<Request>, r: Request)
    requires forall x :: x in rs ==> !Ends(x)
    ensures r.Malformed? ==>
              Earns(user, rs, r, [Message("err", "invalid message"), Message("err", "invalid message tag")])
    ensures r.Closed? ==> Earns(user, rs, r, [Message("err", "EOF or Error")])
    ensures r.Line? && r.m.tag == "join" ==>
              Earns(user, rs, r, [if ValidRoomName(r.m.data) then Message("ok", "succesfully joined " + r.m.data + "!")
                                  else Message("err", "invalid room name")])
    ensures r.Line? && r.m.tag == "leave" ==>
              var room := Fold(user, rs).room;
              Earns(user, rs, r, [if room.Some? then Message("ok", user + " has left the room " + room.value)
                                  else Message("err", "not in any room")])
    ensures r.Line? && r.m.tag == "quit" ==> Earns(user, rs, r, [Message("ok", "quit")])
    ensures r.Line? && r.m.tag == "sendall" ==>
              Earns(user, rs, r, [if Fold(user, rs).room.Some? then Message("ok", "message was sent to all users")
                                  else Message("err", "not in any room")])
    ensures r.Line? && r.m.tag !in ["join", "leave", "quit", "sendall"] ==>
              Earns(user, rs, r, [Message("err", "invalid message tag")])
  {
    OverOnlyByEnding(user, rs);
    FoldSnoc(user, rs, r);
    var now := Fold(user, rs).replies;
    assert now + [BAD_LINE_REPLY] + [BAD_TAG_REPLY] == now + [BAD_LINE_REPLY, BAD_TAG_REPLY];
  }

  /** A session begins in no room, with nothing said; it ends with a line tagged `quit`
      or with the connection. */
  lemma SessionIs(user: string, r: Request)
    ensures Fold(user, []).room == None && !Fold(user, []).over && Fold(user, []).replies == []
    ensures Ends(r) <==> r.Closed? || (r.Line? && r.m.tag == "quit")
    ensures ValidJoin(r) <==> r.Line? && r.m.tag == "join" && ValidRoomName(r.m.data)
    ensures IsLeave(r) <==> r.Line? && r.m.tag == "leave"
  {
  }

  /** Every reply of a receiver's thread to a first request that is no valid join, word
      for word: all of them errors. */
  lemma RefusalsAre(r: Request)
    requires !ValidJoin(r)
    ensures r.Malformed? ==> RefusalOf(r) == Message("err", "invalid message")
    ensures r.Closed? ==> RefusalOf(r) == Message("err", "EOF or Error")
    ensures r.Line? && r.m.tag != "join" ==> RefusalOf(r) == Message("err", "need to send a join message first")
    ensures r.Line? && r.m.tag == "join" ==> RefusalOf(r) == Message("err", "invalid room name")
  {
  }

  /** The other answers of a receiver's thread, and the answer to a login. */
  lemma AnswersAre(name: string)
    ensures WelcomeReply(name) == Message("ok", "Welcome " + name + "!")
    ensures JOINED_ROOM_REPLY == Message("ok", "succesfully joined room")
    ensures EMPTY_REPLY == Message("err", "Empty error")
  {
  }

  /** A sendall or a leave is answered `ok` exactly when the session is in a room. */
  lemma OkExactlyInRoom(user: string, rs: seq<Request>, m: Message)
    requires forall r :: r in rs ==> !Ends(r)
    requires m.tag == TAG_SENDALL || m.tag == TAG_LEAVE
    ensures var replies := Fold(user, rs + [Line(m)]).replies;
            && |replies| == |Fold(user, rs).replies| + 1
            && replies[..|replies| - 1] == Fold(user, rs).replies
            && (replies[|replies| - 1].tag == TAG_OK <==> Fold(user, rs).room.Some?)
  {
    OverOnlyByEnding(user, rs);
    FoldSnoc(user, rs, Line(m));
    var now, replies := Fold(user, rs), Fold(user, rs + [Line(m)]).replies;
    assert replies == now.replies + [replies[|replies| - 1]];
  }

  // ---- What a session asks to say

  /** What the last of the requests asks to say in a room, if it does. */
  function LastAsk(user: string, before: seq<Request>, r: Request): seq<(string, string)> {
    var now := Fold(user, before);
    if !now.over && now.room.Some? && r.Line? && r.m.tag == TAG_SENDALL then [(now.room.value, r.m.data)] else []
  }

  /** The sendalls of a session that come while it is in a room, each with the name
      of that room. */
  function Asks(user: string, rs: seq<Request>): seq<(string, string)> {
    if rs == [] then []
    else Asks(user, rs[..|rs| - 1]) + LastAsk(user, rs[..|rs| - 1], rs[|rs| - 1])
  }

  lemma AsksSnoc(user: string, rs: seq<Request>, r: Request)
    ensures Asks(user, rs + [r]) == Asks(user, rs) + LastAsk(user, rs, r)
  {
    assert (rs + [r])[..|rs|] == rs;
  }

  /** A sendall adds to the asks of a session exactly while it is in a room: that of
      the last valid join with no later leave. */
  lemma AsksGrow(user: string, rs: seq<Request>, text: string)
    requires forall r :: r in rs ==> !Ends(r)
    ensures forall i, name :: LastJoin(rs, i, name) ==>
              Asks(user, rs + [Line(Message("sendall", text))]) == Asks(user, rs) + [(name, text)]
    ensures (forall i, name :: !LastJoin(rs, i, name)) ==>
              Asks(user, rs + [Line(Message("sendall", text))]) == Asks(user, rs)
  {
    OverOnlyByEnding(user, rs);
    AsksSnoc(user, rs, Line(Message("sendall", text)));
    forall i, name | LastJoin(rs, i, name) ensures Fold(user, rs).room == Some(name) {
      RoomIsLastJoin(user, rs, name);
    }
    if Fold(user, rs).room.Some? {
      RoomIsLastJoin(user, rs, Fold(user, rs).room.value);
    }
  }

  /** Nothing else does. */
  lemma OnlySendallsAsk(user: string, rs: seq<Request>, r: Request)
    requires !r.Line? || r.m.tag != "sendall"
    ensures Asks(user, rs + [r]) == Asks(user, rs) && Asks(user, []) == []
  {
    AsksSnoc(user, rs, r);
  }

  /** A session to which the login has been answered first. */
  function Welcomed(user: string, s: Standing): Standing {
    s.(replies := [WelcomeReply(user)] + s.replies)
  }

  /** The welcome comes before everything and changes nothing after it. */
  lemma TurnAfterWelcome(user: string, s: Standing, r: Request)
    ensures Turn(Welcomed(user, s), user, r) == Welcomed(user, Turn(s, user, r))
  {
    assert forall x :: [WelcomeReply(user)] + s.replies + [x] == [WelcomeReply(user)] + (s.replies + [x]);
  }
}
