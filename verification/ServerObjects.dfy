/** The server's objects as they are in memory, each method run to its end by one
    thread: message_queue.cpp, room.cpp, server.cpp. A mutex is the field that
    says whether it is held; taking it requires that it is free, so a thread that
    would wait for itself does not verify. */
module ServerObjects {
  import opened Basics
  import opened Messages
  import opened Session

  class MessageQueue {
    var locked: bool            // m_lock
    var avail: nat              // m_avail
    var messages: seq<Message>  // m_messages

    /** Between calls: the mutex is free and the semaphore counts the deque. */
    ghost predicate Quiet()
      reads this
    {
      !locked && avail == |messages|
    }

    constructor ()
      ensures Quiet() && messages == []
    {
      locked, avail, messages := false, 0, [];
    }

    method Enqueue(m: Message)
      requires Quiet()
      modifies this
      ensures Quiet() && messages == old(messages) + [m]
    {
      Lock();
      messages := messages + [m];
      Unlock();
      avail := avail + 1;
    }

    /** `clockWorks` is the success of clock_gettime. With nobody else running,
        sem_timedwait times out exactly when the count is zero. */
    method Dequeue(clockWorks: bool) returns (m: Option<Message>)
      requires Quiet()
      modifies this
      ensures Quiet()
      ensures if clockWorks && old(messages) != []
              then m == Some(old(messages)[0]) && messages == old(messages)[1..]
              else m == None && messages == old(messages)
    {
      if !clockWorks {
        return None;
      }
      if avail == 0 {
        return None;
      }
      avail := avail - 1;
      Lock();
      m := Some(messages[0]);
      messages := messages[1..];
      Unlock();
    }

    method Lock()
      requires !locked
      modifies this`locked
      ensures locked
    {
      locked := true;
    }

    method Unlock()
      requires locked
      modifies this`locked
      ensures !locked
    {
      locked := false;
    }
  }

  class User {
    const username: string
    const mqueue: MessageQueue

    constructor (username: string)
      ensures this.username == username && fresh(mqueue) && mqueue.Quiet() && mqueue.messages == []
    {
      this.username := username;
      this.mqueue := new MessageQueue();
    }
  }

  /** Every user owns its queue. */
  ghost predicate Separate(users: set<User>) {
    forall u, v :: u in users && v in users && u != v ==> u.mqueue != v.mqueue
  }

  ghost predicate AllQuiet(users: set<User>)
    reads set u | u in users :: u.mqueue
  {
    forall u :: u in users ==> u.mqueue.Quiet()
  }

  class Room {
    const name: string
    var locked: bool
    var members: set<User>

    constructor (name: string)
      ensures this.name == name && !locked && members == {}
    {
      this.name := name;
      locked, members := false, {};
    }

    method Lock()
      requires !locked
      modifies this`locked
      ensures locked
    {
      locked := true;
    }

    method Unlock()
      requires locked
      modifies this`locked
      ensures !locked
    {
      locked := false;
    }

    method AddMember(user: User)
      requires !locked
      modifies this
      ensures !locked && members == old(members) + {user}
    {
      Lock();
      if user !in members {
        members := members + {user};
      }
      Unlock();
    }

    method RemoveMember(user: User)
      requires !locked
      modifies this
      ensures !locked && members == old(members) - {user}
    {
      Lock();
      if user in members {
        members := members - {user};
      }
      Unlock();
    }

    /** Every member with another name gets one message at the end of its queue,
        in whatever order the set is walked; nobody else gets anything. */
    method BroadcastMessage(sender: string, text: string)
      requires !locked && Separate(members) && AllQuiet(members)
      modifies this`locked, set u | u in members :: u.mqueue
      ensures !locked && AllQuiet(members)
      ensures forall u :: u in members ==>
                u.mqueue.messages == old(u.mqueue.messages) + Heard(u.username, name, sender, text)
      ensures forall u :: u in members ==>
                u.mqueue.messages
                == old(u.mqueue.messages)
                   + if u.username != sender then [Message("delivery", name + ":" + sender + ":" + text)] else []
    {
      Lock();
      var todo := members;
      while todo != {}
        invariant todo <= members && locked
        invariant AllQuiet(members)
        invariant forall u :: u in todo ==> u.mqueue.messages == old(u.mqueue.messages)
        invariant forall u :: u in members - todo ==>
                    u.mqueue.messages == old(u.mqueue.messages) + Heard(u.username, name, sender, text)
      {
        var currUser :| currUser in todo;
        if currUser.username != sender {
          var newMsg := Delivery(name, sender, text);
          currUser.mqueue.Enqueue(newMsg);
        }
        todo := todo - {currUser};
      }
      Unlock();
    }
  }

  /** What the request r of `sender`, coming after the requests `before`, puts into
      the queue of a user called `name` who sits in `room`. */
  function LastGift(sender: string, name: string, room: string, before: seq<Request>, r: Request): seq<Message> {
    var now := Fold(sender, before);
    if !now.over && now.room == Some(room) && r.Line? && r.m.tag == TAG_SENDALL
    then Heard(name, room, sender, r.m.data) else []
  }

  /** What a session of `sender` puts into the queue of a user called `name` who
      sits in `room` all the time. */
  function Gifts(sender: string, name: string, room: string, rs: seq<Request>): seq<Message> {
    if rs == [] then []
    else Gifts(sender, name, room, rs[..|rs| - 1])
         + LastGift(sender, name, room, rs[..|rs| - 1], rs[|rs| - 1])
  }

  lemma GiftsSnoc(sender: string, name: string, room: string, rs: seq<Request>, r: Request)
    ensures Gifts(sender, name, room, rs + [r])
            == Gifts(sender, name, room, rs) + LastGift(sender, name, room, rs, r)
  {
    assert (rs + [r])[..|rs|] == rs;
  }

  /** A sendall gives the message to whoever sits in the session's room under another
      name, and to nobody else. */
  lemma GiftsGrow(sender: string, name: string, room: string, rs: seq<Request>, text: string)
    requires forall r :: r in rs ==> !Ends(r)
    ensures var now := Gifts(sender, name, room, rs);
            var after := Gifts(sender, name, room, rs + [Line(Message("sendall", text))]);
            if name != sender && exists i :: LastJoin(rs, i, room)
            then after == now + [Message("delivery", room + ":" + sender + ":" + text)]
            else after == now
  {
    OverOnlyByEnding(sender, rs);
    RoomIsLastJoin(sender, rs, room);
    GiftsSnoc(sender, name, room, rs, Line(Message("sendall", text)));
  }

  lemma OnlySendallsGive(sender: string, name: string, room: string, rs: seq<Request>, r: Request)
    requires !r.Line? || r.m.tag != "sendall"
    ensures Gifts(sender, name, room, rs + [r]) == Gifts(sender, name, room, rs)
    ensures Gifts(sender, name, room, []) == []
  {
    GiftsSnoc(sender, name, room, rs, r);
  }

  /** What is heard is everything up to the first request that ends the session, or
      everything and then the end of the connection. */
  lemma {:induction false} ConsumedIs(rs: seq<Request>, k: nat)
    requires k <= |rs| && (forall i :: 0 <= i < k ==> !Ends(rs[i])) && (k < |rs| ==> Ends(rs[k]))
    ensures Consumed(rs) == if k < |rs| then rs[..k + 1] else rs + [Closed]
  {
    if k > 0 {
      ConsumedIs(rs[1..], k - 1);
      assert rs == [rs[0]] + rs[1..];
    }
  }

  lemma {:induction false} ConsumedStep(rs: seq<Request>, i: nat)
    requires i <= |rs|
    ensures Consumed(rs[i..]) == if i == |rs| then [Closed]
                                 else if Ends(rs[i]) then [rs[i]]
                                 else [rs[i]] + Consumed(rs[i + 1..])
  {
    if i < |rs| {
      assert rs[i..][1..] == rs[i + 1..];
    }
  }

  /** What has been heard and what will be heard make up what is heard in all. */
  predicate HeardSoFar(rs: seq<Request>, heard: seq<Request>, i: nat) {
    i <= |rs| && heard + Consumed(rs[i..]) == Consumed(rs)
  }

  lemma {:induction false} HeardStep(rs: seq<Request>, heard: seq<Request>, i: nat)
    requires HeardSoFar(rs, heard, i)
    ensures var r := if i < |rs| then rs[i] else Closed;
            if Ends(r) then heard + [r] == Consumed(rs) else HeardSoFar(rs, heard + [r], i + 1)
  {
    ConsumedStep(rs, i);
    if i < |rs| && !Ends(rs[i]) {
      Regroup(heard, rs[i], Consumed(rs[i + 1..]));
    }
  }

  class Server {
    var locked: bool              // m_lock
    var rooms: map<string, Room>  // m_rooms
    ghost var users: set<User>    // every User there is

    ghost function Queues(): set<MessageQueue>
      reads this
    {
      set u | u in users :: u.mqueue
    }

    ghost function Inboxes(): map<User, seq<Message>>
      reads this, Queues()
    {
      map u | u in users :: u.mqueue.messages
    }

    /** Between calls: no mutex is held, every room is stored under its own name,
        names are valid, and the members are users that exist. */
    ghost predicate Valid()
      reads this, rooms.Values, Queues()
    {
      && !locked
      && (forall n :: n in rooms ==>
            rooms[n].name == n && ValidRoomName(n) && !rooms[n].locked && rooms[n].members <= users)
      && Separate(users) && AllQuiet(users)
    }

    constructor ()
      ensures Valid() && rooms == map[] && users == {}
    {
      locked, rooms, users := false, map[], {};
    }

    /** Server::find_or_create_room */
    method FindOrCreateRoom(roomName: string) returns (r: Room)
      requires !locked
      modifies this`locked, this`rooms
      ensures !locked && roomName in rooms && rooms[roomName] == r
      ensures if roomName in old(rooms) then rooms == old(rooms)
              else rooms == old(rooms)[roomName := r] && fresh(r)
                   && r.name == roomName && !r.locked && r.members == {}
    {
      locked := true;
      if roomName in rooms {
        r := rooms[roomName];
        locked := false;
        return;
      }
      r := new Room(roomName);
      rooms := rooms[roomName := r];
      locked := false;
    }

    /** The set of room n, empty while there is no such room. */
    ghost function MembersOf(n: string): set<User>
      reads this, rooms.Values
    {
      if n in rooms then rooms[n].members else {}
    }

    /** User x is in the set of room n and of no other. */
    ghost predicate SitsIn(x: User, n: string)
      reads this, rooms.Values
    {
      x in MembersOf(n) && forall q :: x in MembersOf(q) ==> q == n
    }

    /** The local variable `room` of a chat loop agrees with the sets: the user is
        in the set of that room and of no other. */
    ghost predicate At(user: User, room: Option<Room>)
      reads this, rooms.Values
    {
      && (room.Some? ==> room.value.name in rooms && rooms[room.value.name] == room.value)
      && forall n :: n in rooms ==> (user in rooms[n].members <==> room == Some(rooms[n]))
    }

    /** Rooms are never replaced or dropped, and only `user` moves between them. */
    twostate predicate OthersStay(user: User)
      reads this, rooms.Values
    {
      && users == old(users)
      && (forall n :: n in old(rooms) ==> n in rooms && rooms[n] == old(rooms[n]))
      && (forall n :: n in rooms && n !in old(rooms) ==> fresh(rooms[n]))
      && (forall n :: MembersOf(n) - {user} == old(MembersOf(n)) - {user})
    }

    /** A room may be left: `if (room != nullptr) room->remove_member(user)`. */
    method LeaveRoom(user: User, room: Option<Room>)
      requires Valid() && user in users && At(user, room)
      modifies rooms.Values
      ensures Valid() && OthersStay(user) && At(user, None)
      ensures rooms == old(rooms)
    {
      if room.Some? {
        room.value.RemoveMember(user);
      }
    }

    method JoinRoom(user: User, roomName: string) returns (room: Room)
      requires Valid() && user in users && At(user, None) && ValidRoomName(roomName)
      modifies this`locked, this`rooms, rooms.Values
      ensures Valid() && OthersStay(user) && At(user, Some(room)) && room.name == roomName
    {
      room := FindOrCreateRoom(roomName);
      room.AddMember(user);
    }

    /** A join: leave the room there may be, enter the other. */
    method SwitchRoom(user: User, room: Option<Room>, roomName: string) returns (next: Room)
      requires Valid() && user in users && At(user, room) && ValidRoomName(roomName)
      modifies this`locked, this`rooms, rooms.Values
      ensures Valid() && OthersStay(user) && At(user, Some(next)) && next.name == roomName
    {
      LeaveRoom(user, room);
      next := JoinRoom(user, roomName);
    }

    /** What a broadcast from `room` adds to the queue of x. */
    ghost function Gift(x: User, sender: User, room: Option<Room>, r: Request): seq<Message>
      reads if room.Some? then {room.value} else {}
    {
      if r.Line? && r.m.tag == TAG_SENDALL && room.Some? && x in room.value.members
      then Heard(x.username, room.value.name, sender.username, r.m.data) else []
    }

    /** sendall, from inside a room */
    method SayInRoom(user: User, room: Room, text: string)
      requires Valid() && user in users && At(user, Some(room))
      modifies rooms.Values, Queues()
      ensures Valid() && OthersStay(user) && At(user, Some(room)) && rooms == old(rooms)
      ensures forall x :: x in users ==>
                x.mqueue.messages == old(x.mqueue.messages)
                                     + (if x in old(room.members)
                                        then Heard(x.username, room.name, user.username, text) else [])
    {
      assert rooms[room.name].members <= users;
      room.BroadcastMessage(user.username, text);
    }

    /** One turn of the loop of chat_with_sender on what Connection::receive gave. */
    method TakeTurn(user: User, room: Option<Room>, r: Request)
        returns (next: Option<Room>, over: bool, replies: seq<Message>)
      requires Valid() && user in users && At(user, room)
      modifies this`locked, this`rooms, rooms.Values, Queues()
      ensures Valid() && OthersStay(user) && At(user, next)
      ensures over ==> next == room
      ensures Standing(if over then None else NameOfRoom(next), over, replies)
              == Turn(Standing(NameOfRoom(room), false, []), user.username, r)
      ensures forall x :: x in users ==> x.mqueue.messages == old(x.mqueue.messages) + old(Gift(x, user, room, r))
      ensures forall x :: x in users ==>
                x.mqueue.messages
                == old(x.mqueue.messages)
                   + if r.Line? && r.m.tag == "sendall" && room.Some? && x in old(room.value.members)
                        && x.username != user.username
                     then [Message("delivery", room.value.name + ":" + user.username + ":" + r.m.data)] else []
    {
      next, over, replies := room, false, [];
      var msg := Message(TAG_ERR, "");
      match r {
        case Malformed =>
          replies := replies + [BAD_LINE_REPLY];
        case Closed =>
          replies := replies + [CLOSED_REPLY];
          over := true;
          return;
        case Line(m) =>
          msg := m;
      }
      if msg.tag == TAG_JOIN {
        var ok := IsValidRoomName(msg.data);
        if !ok {
          replies := replies + [BAD_ROOM_REPLY];
        } else {
          var joined := SwitchRoom(user, room, msg.data);
          next := Some(joined);
          replies := replies + [JoinedReply(msg.data)];
        }
      } else if msg.tag == TAG_LEAVE {
        if room.None? {
          replies := replies + [NO_ROOM_REPLY];
        } else {
          LeaveRoom(user, room);
          replies := replies + [LeftReply(user.username, room.value.name)];
          next := None;
        }
      } else if msg.tag == TAG_QUIT {
        replies := replies + [QUIT_REPLY];
        over := true;
      } else if msg.tag == TAG_SENDALL {
        if room.None? {
          replies := replies + [NO_ROOM_REPLY];
        } else {
          SayInRoom(user, room.value, msg.data);
          replies := replies + [SENT_REPLY];
        }
      } else {
        replies := replies + [BAD_TAG_REPLY];
      }
    }

    /** Whoever sits in a room while another user moves about sat there before,
        and the other way round. */
    twostate lemma SittersStay(user: User)
      requires OthersStay(user)
      ensures forall x, n :: x in old(users) && x != user ==> (old(SitsIn(x, n)) <==> SitsIn(x, n))
    {
      forall x, n | x in old(users) && x != user ensures x in old(MembersOf(n)) <==> x in MembersOf(n) {
        assert x in old(MembersOf(n)) - {user} <==> x in MembersOf(n) - {user};
      }
    }

    lemma GiftToSitter(x: User, n: string, user: User, room: Option<Room>, before: seq<Request>, r: Request)
      requires SitsIn(x, n) && At(user, room)
      requires Fold(user.username, before).room == NameOfRoom(room) && !Fold(user.username, before).over
      ensures Gift(x, user, room, r) == LastGift(user.username, x.username, n, before, r)
    {
      if room.Some? {
        assert MembersOf(room.value.name) == room.value.members;
      }
    }

    /** Since the inboxes were as recorded, everybody who sits in a room has got what
        the session of `user` has put there, and nothing else. */
    ghost predicate Given(inboxes: map<User, seq<Message>>, user: User, heard: seq<Request>)
      reads this, rooms.Values, Queues()
    {
      inboxes.Keys == users &&
      forall x, n :: x in users && x != user && SitsIn(x, n) ==>
        x.mqueue.messages == inboxes[x] + Gifts(user.username, x.username, n, heard)
    }

    /** One turn, seen from the whole session. */
    method Advance(user: User, room: Option<Room>, r: Request, replies: seq<Message>,
                   ghost heard: seq<Request>, ghost inboxes: map<User, seq<Message>>)
        returns (next: Option<Room>, over: bool, all: seq<Message>)
      requires Valid() && user in users && At(user, room)
      requires Fold(user.username, heard) == Standing(NameOfRoom(room), false, replies)
      requires Given(inboxes, user, heard)
      modifies this`locked, this`rooms, rooms.Values, Queues()
      ensures Valid() && OthersStay(user) && At(user, next)
      ensures Fold(user.username, heard + [r]) == Standing(if over then None else NameOfRoom(next), over, all)
      ensures over == Ends(r) && Given(inboxes, user, heard + [r])
    {
      forall x, n | x in users && x != user && SitsIn(x, n)
        ensures x.mqueue.messages + Gift(x, user, room, r)
                == inboxes[x] + Gifts(user.username, x.username, n, heard + [r])
      {
        GiftToSitter(x, n, user, room, heard, r);
        GiftsSnoc(user.username, x.username, n, heard, r);
      }
      var said;
      next, over, said := TakeTurn(user, room, r);
      SittersStay(user);
      FoldSnoc(user.username, heard, r);
      TurnAddsReplies(NameOfRoom(room), replies, user.username, r);
      TurnEnds(NameOfRoom(room), replies, user.username, r);
      all := replies + said;
    }

    /** After the loop the user leaves the room it may be in; nobody gets anything. */
    method Finish(user: User, room: Option<Room>, ghost heard: seq<Request>, ghost inboxes: map<User, seq<Message>>)
      requires Valid() && user in users && At(user, room) && Given(inboxes, user, heard)
      modifies rooms.Values
      ensures Valid() && OthersStay(user) && At(user, None) && Given(inboxes, user, heard)
      ensures rooms == old(rooms)
    {
      LeaveRoom(user, room);
      SittersStay(user);
    }

    /** Server::chat_with_sender on a connection that delivers `requests` and then
        closes. `heard` is what the loop has received when it ends. */
    method ChatWithSender(user: User, requests: seq<Request>)
        returns (replies: seq<Message>, ghost heard: seq<Request>)
      requires Valid() && user in users && At(user, None)
      modifies this`locked, this`rooms, rooms.Values, Queues()
      ensures Valid() && OthersStay(user) && At(user, None)
      ensures heard == Consumed(requests)
      ensures Fold(user.username, heard) == Standing(None, true, replies)
      ensures Given(old(Inboxes()), user, heard)
    {
      var room: Option<Room>, over, i: nat := None, false, 0;
      replies, heard := [], [];
      ghost var inboxes := Inboxes();
      while !over
        invariant Valid() && OthersStay(user) && At(user, room)
        invariant Fold(user.username, heard) == Standing(if over then None else NameOfRoom(room), over, replies)
        invariant if over then heard == Consumed(requests) else HeardSoFar(requests, heard, i)
        invariant Given(inboxes, user, heard)
        decreases |requests| - i, !over
      {
        var r := if i < |requests| then requests[i] else Closed;
        HeardStep(requests, heard, i);
        room, over, replies := Advance(user, room, r, replies, heard, inboxes);
        heard := heard + [r];
        i := i + 1;
      }
      Finish(user, room, heard, inboxes);
    }

    /** The second half of chat_with_receiver: into the room, the delivery loop, and
        out again after a failed send. */
    method DeliverInRoom(user: User, roomName: string, turns: seq<DeliveryTurn>)
        returns (replies: seq<Message>, delivered: seq<Message>, left: bool, ghost lost: seq<Message>)
      requires Valid() && user in users && At(user, None) && ValidRoomName(roomName)
      modifies this`locked, this`rooms, rooms.Values, user.mqueue
      ensures Valid() && OthersStay(user)
      ensures Attended(old(user.mqueue.messages), turns, replies, delivered, lost, user.mqueue.messages)
      ensures left <==> lost != []
      ensures if left then At(user, None) else roomName in rooms && At(user, Some(rooms[roomName]))
    {
      var room := JoinRoom(user, roomName);
      replies := [JOINED_ROOM_REPLY];
      var empties;
      delivered, left, empties, lost := DeliveryLoop(user, turns);
      assert Valid() && OthersStay(user) && At(user, Some(room));
      replies := replies + seq(empties, i => EMPTY_REPLY);
      if left {
        LeaveRoom(user, Some(room));
      }
    }

    /** Server::chat_with_receiver: `first` is the one request it reads, `turns` what
        happens in its delivery loop for as long as the model follows it. */
    method ChatWithReceiver(user: User, first: Request, turns: seq<DeliveryTurn>)
        returns (replies: seq<Message>, delivered: seq<Message>, left: bool, ghost lost: seq<Message>)
      requires Valid() && user in users && At(user, None)
      modifies this`locked, this`rooms, rooms.Values, user.mqueue
      ensures Valid() && OthersStay(user)
      ensures !ValidJoin(first) ==>
                && left && At(user, None) && delivered == []
                && replies == [RefusalOf(first)] && user.mqueue.messages == old(user.mqueue.messages)
      ensures ValidJoin(first) ==>
                && Attended(old(user.mqueue.messages), turns, replies, delivered, lost, user.mqueue.messages)
                && (left <==> lost != [])
                && if left then At(user, None)
                   else first.m.data in rooms && At(user, Some(rooms[first.m.data]))
    {
      replies, delivered, left, lost := [], [], true, [];
      match first {
        case Malformed =>
          replies := replies + [BAD_LINE_REPLY];
          return;
        case Closed =>
          replies := replies + [CLOSED_REPLY];
          return;
        case Line(m) =>
      }
      if first.m.tag != TAG_JOIN {
        replies := replies + [NO_JOIN_REPLY];
        return;
      }
      var ok := IsValidRoomName(first.m.data);
      if !ok {
        replies := replies + [BAD_ROOM_REPLY];
        return;
      }
      var said;
      said, delivered, left, lost := DeliverInRoom(user, first.m.data, turns);
      replies := replies + said;
    }

    /** Rooms, their members, and the queues of the users there were are as before. */
    twostate predicate NobodyDisturbed()
      reads this, rooms.Values, Queues()
    {
      && rooms == old(rooms)
      && (forall n :: MembersOf(n) == old(MembersOf(n)))
      && forall u :: u in old(users) ==> u in users && u.mqueue.messages == old(u.mqueue.messages)
    }

    twostate lemma SeatsAsBefore()
      requires NobodyDisturbed()
      ensures forall x, n :: x in old(users) ==> (old(SitsIn(x, n)) <==> SitsIn(x, n))
    {
      assert forall n :: MembersOf(n) == old(MembersOf(n));
    }

    /** A User for the thread that has just read a login. */
    method NewUser(name: string) returns (user: User)
      requires Valid()
      modifies this`users
      ensures Valid() && fresh(user) && fresh(user.mqueue) && user.username == name
      ensures users == old(users) + {user} && At(user, None) && user.mqueue.messages == []
      ensures NobodyDisturbed()
    {
      user := new User(name);
      users := users + {user};
    }

    /** The branch of worker that runs the chat loop of the role asked for. */
    method Serve(user: User, receiver: bool, requests: seq<Request>, turns: seq<DeliveryTurn>)
        returns (said: seq<Message>)
      requires Valid() && user in users && At(user, None) && user.mqueue.messages == []
      modifies this`locked, this`rooms, rooms.Values, Queues()
      ensures Valid() && OthersStay(user)
      ensures !receiver ==> said == Fold(user.username, Consumed(requests)).replies && At(user, None)
      ensures !receiver ==>
                forall x, n :: x in users && x != user && old(SitsIn(x, n)) ==>
                  x.mqueue.messages
                  == old(x.mqueue.messages) + Gifts(user.username, x.username, n, Consumed(requests))
      ensures receiver ==> AnswersReceiver(if requests == [] then Closed else requests[0], turns, said)
      ensures receiver ==> forall x :: x in users && x != user ==> x.mqueue.messages == old(x.mqueue.messages)
    {
      if receiver {
        var request := if requests == [] then Closed else requests[0];
        var delivered, left;
        ghost var lost;
        said, delivered, left, lost := ChatWithReceiver(user, request, turns);
      } else {
        ghost var heard;
        said, heard := ChatWithSender(user, requests);
        SittersStay(user);
      }
    }

    /** worker: the login, the welcome, and the chat loop of the role asked for. */
    method Worker(first: Request, welcomeSent: bool, requests: seq<Request>, turns: seq<DeliveryTurn>)
        returns (replies: seq<Message>)
      requires Valid()
      modifies this, rooms.Values, Queues()
      ensures Valid() && old(users) <= users
      ensures first.Malformed? ==> replies == [Message("err", "invalid message")]
      ensures first.Closed? ==> replies == []
      ensures first.Line? && first.m.tag !in ["slogin", "rlogin"] ==>
                replies == [Message("err", "1st message has to be slogin or rlogin")]
      ensures !LogsIn(first) ==> users == old(users)
      ensures !LogsIn(first) || !welcomeSent ==> NobodyDisturbed()
      ensures LogsIn(first) ==>
                replies != [] && replies[0] == Message("ok", "Welcome " + first.m.data + "!")
                && (!welcomeSent ==> |replies| == 1)
      ensures first.Line? && first.m.tag == "slogin" && welcomeSent ==>
                && replies[1..] == Fold(first.m.data, Consumed(requests)).replies
                && forall x, n :: x in old(users) && old(SitsIn(x, n)) ==>
                     x.mqueue.messages
                     == old(x.mqueue.messages) + Gifts(first.m.data, x.username, n, Consumed(requests))
      ensures first.Line? && first.m.tag == "rlogin" && welcomeSent ==>
                && AnswersReceiver(if requests == [] then Closed else requests[0], turns, replies[1..])
                && forall x :: x in old(users) ==> x.mqueue.messages == old(x.mqueue.messages)
    {
      replies := [];
      match first {
        case Malformed =>
          replies := replies + [BAD_LINE_REPLY];
          return;
        case Closed =>
          return;
        case Line(m) =>
      }
      if first.m.tag != TAG_RLOGIN && first.m.tag != TAG_SLOGIN {
        replies := replies + [NO_LOGIN_REPLY];
        return;
      }
      var thisUser := NewUser(first.m.data);
      replies := replies + [WelcomeReply(first.m.data)];
      if !welcomeSent {
        return;
      }
      ghost var inboxes := Inboxes();
      assert forall x :: x in old(users) ==> inboxes[x] == old(x.mqueue.messages);
      SeatsAsBefore();
      var said := Serve(thisUser, first.m.tag == TAG_RLOGIN, requests, turns);
      assert (replies + said)[1..] == said;
      replies := replies + said;
    }
  }

  /** How a receiver's thread with an empty queue answers its one request: a refusal,
      or the answer to the join and one complaint for each round. */
  predicate AnswersReceiver(request: Request, turns: seq<DeliveryTurn>, said: seq<Message>) {
    if ValidJoin(request) then
      && |said| == 1 + |turns| && said[0] == Message("ok", "succesfully joined room")
      && forall i :: 1 <= i < |said| ==> said[i] == Message("err", "Empty error")
    else said == [RefusalOf(request)]
  }

  const NO_LOGIN_REPLY := Message(TAG_ERR, "1st message has to be slogin or rlogin")

  predicate LogsIn(r: Request) {
    r.Line? && (r.m.tag == "slogin" || r.m.tag == "rlogin")
  }

  /** One round of the delivery loop: does the clock work, does the send succeed? */
  datatype DeliveryTurn = DeliveryTurn(clockWorks: bool, sent: bool)

  datatype Drained = Drained(delivered: seq<Message>, dropped: seq<Message>, rest: seq<Message>, empties: nat)

  /** What the delivery loop does with a queue that nobody else touches. */
  function Drain(queue: seq<Message>, turns: seq<DeliveryTurn>): Drained {
    if turns == [] then Drained([], [], queue, 0)
    else if !turns[0].clockWorks || queue == [] then
      var d := Drain(queue, turns[1..]);
      d.(empties := d.empties + 1)
    else if !turns[0].sent then Drained([], [queue[0]], queue[1..], 0)
    else
      var d := Drain(queue[1..], turns[1..]);
      d.(delivered := [queue[0]] + d.delivered)
  }

  /** In how many rounds the clock works. */
  function Working(turns: seq<DeliveryTurn>): nat {
    if turns == [] then 0 else (if turns[0].clockWorks then 1 else 0) + Working(turns[1..])
  }

  /** Round i finds a message in a queue of n, if no round before it has failed: its
      clock works, and earlier working rounds have not emptied the queue. */
  predicate Finds(n: nat, turns: seq<DeliveryTurn>, i: nat)
    requires i < |turns|
  {
    turns[i].clockWorks && Working(turns[..i]) < n
  }

  /** What becomes of a queue in k rounds. Every round that finds a message takes the
      first one left: it is delivered if the send succeeds, and otherwise lost, and
      the loop ends there. Every other round is empty. */
  predicate ServedFor(queue: seq<Message>, turns: seq<DeliveryTurn>, k: nat, delivered: seq<Message>,
                      lost: seq<Message>, rest: seq<Message>, empties: nat) {
    && k <= |turns|
    && queue == delivered + lost + rest
    && |delivered| + |lost| == (if Working(turns[..k]) < |queue| then Working(turns[..k]) else |queue|)
    && empties == k - |delivered| - |lost|
    && if lost == [] then
         k == |turns| && forall i :: 0 <= i < k && Finds(|queue|, turns, i) ==> turns[i].sent
       else
         && |lost| == 1 && k > 0 && Finds(|queue|, turns, k - 1) && !turns[k - 1].sent
         && forall i :: 0 <= i < k - 1 && Finds(|queue|, turns, i) ==> turns[i].sent
  }

  /** What a receiver's thread says besides its deliveries: that the user has joined,
      and one complaint for each empty round. */
  ghost predicate Attended(queue: seq<Message>, turns: seq<DeliveryTurn>, replies: seq<Message>,
                           delivered: seq<Message>, lost: seq<Message>, rest: seq<Message>) {
    && replies != [] && replies[0] == Message("ok", "succesfully joined room")
    && (forall i :: 1 <= i < |replies| ==> replies[i] == Message("err", "Empty error"))
    && exists k: nat, empties: nat ::
         ServedFor(queue, turns, k, delivered, lost, rest, empties) && |replies| == 1 + empties
  }

  lemma WorkingTail(turns: seq<DeliveryTurn>, k: nat)
    requires 0 < k <= |turns|
    ensures Working(turns[..k]) == (if turns[0].clockWorks then 1 else 0) + Working(turns[1..][..k - 1])
  {
    assert turns[..k][1..] == turns[1..][..k - 1];
  }

  lemma FindsLater(n: nat, turns: seq<DeliveryTurn>, i: nat)
    requires 0 < i < |turns|
    ensures Finds(n, turns, i) <==>
              if turns[0].clockWorks then n > 0 && Finds(n - 1, turns[1..], i - 1) else Finds(n, turns[1..], i - 1)
  {
    WorkingTail(turns, i);
  }

  /** The delivery loop, told round by round. */
  lemma {:induction false} DrainServes(queue: seq<Message>, turns: seq<DeliveryTurn>) returns (k: nat)
    ensures var d := Drain(queue, turns);
            ServedFor(queue, turns, k, d.delivered, d.dropped, d.rest, d.empties)
  {
    if turns == [] {
      k := 0;
    } else if !turns[0].clockWorks || queue == [] {
      k := DrainServes(queue, turns[1..]);
      EmptyRoundFirst(queue, turns, k);
      k := k + 1;
    } else if !turns[0].sent {
      k := 1;
      assert turns[..1] == [turns[0]] && turns[..0] == [];
      assert queue == [] + [queue[0]] + queue[1..];
    } else {
      k := DrainServes(queue[1..], turns[1..]);
      var d := Drain(queue[1..], turns[1..]);
      SentRoundFirst(queue, turns, k, d.delivered, d.dropped, d.rest, d.empties);
      k := k + 1;
    }
  }

  lemma EmptyRoundFirst(queue: seq<Message>, turns: seq<DeliveryTurn>, k: nat)
    requires turns != [] && (!turns[0].clockWorks || queue == [])
    requires var d := Drain(queue, turns[1..]);
             ServedFor(queue, turns[1..], k, d.delivered, d.dropped, d.rest, d.empties)
    ensures var d := Drain(queue, turns);
            ServedFor(queue, turns, k + 1, d.delivered, d.dropped, d.rest, d.empties)
  {
    WorkingTail(turns, k + 1);
    forall i | 0 < i < |turns| && i <= k ensures Finds(|queue|, turns, i) ==> Finds(|queue|, turns[1..], i - 1) {
      FindsLater(|queue|, turns, i);
    }
    forall i | 0 < i < |turns| && i <= k && queue != []
      ensures Finds(|queue|, turns, i) <==> Finds(|queue|, turns[1..], i - 1)
    {
      FindsLater(|queue|, turns, i);
    }
  }

  lemma SentRoundFirst(queue: seq<Message>, turns: seq<DeliveryTurn>, k: nat, delivered: seq<Message>,
                       lost: seq<Message>, rest: seq<Message>, empties: nat)
    requires turns != [] && turns[0].clockWorks && turns[0].sent && queue != []
    requires ServedFor(queue[1..], turns[1..], k, delivered, lost, rest, empties)
    ensures ServedFor(queue, turns, k + 1, [queue[0]] + delivered, lost, rest, empties)
  {
    var later := queue[1..];
    WorkingTail(turns, k + 1);
    ConsApart(queue, delivered, lost, rest);
    forall i | 0 < i < |turns| && i <= k ensures Finds(|queue|, turns, i) <==> Finds(|later|, turns[1..], i - 1) {
      FindsLater(|queue|, turns, i);
    }
    forall i | 0 <= i < |turns| && i <= k && Finds(|queue|, turns, i) && (lost == [] || i < k)
      ensures turns[i].sent
    {
      if i > 0 {
        assert Finds(|later|, turns[1..], i - 1);
      }
    }
  }

  lemma ConsApart<T>(all: seq<T>, a: seq<T>, b: seq<T>, c: seq<T>)
    requires all != [] && all[1..] == a + b + c
    ensures all == ([all[0]] + a) + b + c
  {
    Associates([all[0]], a, b);
    Associates([all[0]], a + b, c);
    assert all == [all[0]] + all[1..];
  }

  function Least(a: nat, b: nat): nat {
    if a < b then a else b
  }

  /** The loop ends early exactly when some round finds a message and cannot send it;
      if every working round can send, everything it finds is delivered. */
  lemma ServedMeans(queue: seq<Message>, turns: seq<DeliveryTurn>, k: nat, delivered: seq<Message>,
                    lost: seq<Message>, rest: seq<Message>, empties: nat)
    requires ServedFor(queue, turns, k, delivered, lost, rest, empties)
    ensures lost != [] <==> exists i :: 0 <= i < |turns| && Finds(|queue|, turns, i) && !turns[i].sent
    ensures (forall i :: 0 <= i < |turns| && turns[i].clockWorks ==> turns[i].sent) ==>
              lost == [] && delivered == queue[..Least(|queue|, Working(turns))]
  {
    assert lost != [] ==> Finds(|queue|, turns, k - 1) && !turns[k - 1].sent;
    assert turns[..|turns|] == turns;
    assert queue[..|delivered|] == delivered;
  }

  /** Nothing is lost but, at most, the one message whose send fails. */
  lemma {:induction false} DrainConserves(queue: seq<Message>, turns: seq<DeliveryTurn>)
    ensures var d := Drain(queue, turns);
            queue == d.delivered + d.dropped + d.rest && |d.dropped| <= 1
  {
    if turns != [] {
      if !turns[0].clockWorks || queue == [] {
        DrainConserves(queue, turns[1..]);
      } else if turns[0].sent {
        var first, rest, d := queue[0], queue[1..], Drain(queue[1..], turns[1..]);
        DrainConserves(rest, turns[1..]);
        assert [first] + (d.delivered + d.dropped + d.rest) == ([first] + d.delivered) + d.dropped + d.rest;
        assert queue == [first] + rest;
      } else {
        assert queue == [queue[0]] + queue[1..];
      }
    }
  }

  /** The loop of chat_with_receiver. A timed-out dequeue is answered with an error
      message and changes nothing. */
  method Rounds(user: User, turns: seq<DeliveryTurn>)
      returns (delivered: seq<Message>, failed: bool, empties: nat)
    requires user.mqueue.Quiet()
    modifies user.mqueue
    ensures user.mqueue.Quiet()
    ensures var d := Drain(old(user.mqueue.messages), turns);
            && delivered == d.delivered && empties == d.empties && user.mqueue.messages == d.rest
            && failed == (d.dropped != [])
  {
    delivered, failed, empties := [], false, 0;
    ghost var d := Drain(user.mqueue.messages, turns);
    for i := 0 to |turns|
      invariant user.mqueue.Quiet() && !failed
      invariant var now := Drain(user.mqueue.messages, turns[i..]);
                && d.delivered == delivered + now.delivered && d.dropped == now.dropped
                && d.rest == now.rest && d.empties == empties + now.empties
    {
      assert turns[i..][1..] == turns[i + 1..];
      var newMsg := user.mqueue.Dequeue(turns[i].clockWorks);
      if newMsg.Some? {
        if !turns[i].sent {
          failed := true;
          return;
        }
        delivered := delivered + [newMsg.value];
      } else {
        empties := empties + 1;
      }
    }
  }

  /** The same loop, told by what its rounds find and whether they can send it. */
  method DeliveryLoop(user: User, turns: seq<DeliveryTurn>)
      returns (delivered: seq<Message>, failed: bool, empties: nat, ghost lost: seq<Message>)
    requires user.mqueue.Quiet()
    modifies user.mqueue
    ensures user.mqueue.Quiet()
    ensures var d := Drain(old(user.mqueue.messages), turns);
            && delivered == d.delivered && empties == d.empties && user.mqueue.messages == d.rest
            && lost == d.dropped
    ensures exists k: nat ::
              ServedFor(old(user.mqueue.messages), turns, k, delivered, lost, user.mqueue.messages, empties)
    ensures failed <==> lost != []
    ensures failed <==>
              exists i :: 0 <= i < |turns| && Finds(|old(user.mqueue.messages)|, turns, i) && !turns[i].sent
    ensures (forall i :: 0 <= i < |turns| && turns[i].clockWorks ==> turns[i].sent) ==>
              var n := Least(|old(user.mqueue.messages)|, Working(turns));
              !failed && delivered == old(user.mqueue.messages)[..n]
  {
    ghost var queue := user.mqueue.messages;
    ghost var d := Drain(queue, turns);
    delivered, failed, empties := Rounds(user, turns);
    lost := d.dropped;
    ghost var k := DrainServes(queue, turns);
    ServedMeans(queue, turns, k, delivered, lost, user.mqueue.messages, empties);
  }

  /** A turn adds its replies to those there are, and ends the loop exactly when
      the request ends it. */
  lemma TurnAddsReplies(room: Option<string>, replies: seq<Message>, user: string, r: Request)
    ensures var alone, after := Turn(Standing(room, false, []), user, r), Turn(Standing(room, false, replies), user, r);
            after == alone.(replies := replies + alone.replies)
  {
  }

  lemma TurnEnds(room: Option<string>, replies: seq<Message>, user: string, r: Request)
    ensures Turn(Standing(room, false, replies), user, r).over <==> Ends(r)
  {
  }

  function NameOfRoom(room: Option<Room>): Option<string> {
    if room.Some? then Some(room.value.name) else None
  }

  /** What the loop receives: everything up to and including the first request
      that ends it; the end of the connection, if there is none. */
  function Consumed(rs: seq<Request>): seq<Request> {
    if rs == [] then [Closed]
    else if Ends(rs[0]) then [rs[0]]
    else [rs[0]] + Consumed(rs[1..])
  }
}
