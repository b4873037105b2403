/** The promises of the server, for every reachable state and every run. */
module ChatTheorems {
  import opened Basics
  import Messages
  import opened Session
  import opened Chat
  import opened ChatSteps
  import opened ChatInvariants
  import opened ChatMessages
  import opened ChatLedger
  import opened ChatSessions
  import opened ChatStreams
  import opened ChatRuns

  // ---- Semaphore and deque

  /** The deque and its semaphore agree up to what threads have half done. */
  lemma SemaphoreAgreement(s: State, u: Tid)
    requires Reachable(s) && u in s.queues
    ensures |s.queues[u].messages| == s.queues[u].avail + |Posters(s, u)| + |Takers(s, u)|
    ensures |s.queues[u].pushed| == s.queues[u].posts + |Posters(s, u)|
  {
    ReachableInv(s);
  }

  /** dequeue never calls front() or pop_front() on an empty deque. */
  lemma PopFindsMessage(s: State, t: Tid)
    requires Reachable(s) && t in s.threads && s.threads[t].pc.Popping?
    ensures Enabled(s, Pop(t)) && s.queues[t].messages != []
  {
    ReachableInv(s);
    assert Takes(s, t, t);
    assert t in Takers(s, t);
    assert DequeAt(s, t);
  }

  // ---- Ownership

  /** A Message that has been allocated is deleted, or it is in exactly one of: the
      hand of a broadcasting thread, one position of one deque, the hand of a
      receiver's thread. */
  lemma OnePlaceOnly(s: State, a: Addr, t: Tid, u: Tid)
    requires Reachable(s) && a < |s.heap|
    ensures HandOut(PcAt(s, t)) == Some(a) <==> s.heap[a].loc == Held(t)
    ensures HandIn(PcAt(s, t)) == Some(a) <==> s.heap[a].loc == Taken(t)
    ensures InDeque(s, u, a) <==> s.heap[a].loc == Queued(u)
    ensures InDeque(s, u, a) ==>
              exists i :: 0 <= i < |s.queues[u].messages| && s.queues[u].messages[i] == a
                          && forall j :: 0 <= j < |s.queues[u].messages| && j != i ==> s.queues[u].messages[j] != a
  {
    ReachableInv(s);
    assert HandsAt(s, t) && CellAt(s, a) && DequeAt(s, u);
    if InDeque(s, u, a) {
      var i :| 0 <= i < |s.queues[u].messages| && s.queues[u].messages[i] == a;
      assert s.heap[s.queues[u].messages[i]].loc == Queued(u);
      forall j | 0 <= j < |s.queues[u].messages| && j != i ensures s.queues[u].messages[j] != a {
        var lo, hi := if i < j then i else j, if i < j then j else i;
        assert s.queues[u].messages[lo] != s.queues[u].messages[hi];
      }
    }
  }

  /** What a receiver's thread sends and deletes is live, and what is deleted
      stays deleted: nothing is sent or deleted twice. */
  lemma DeletedOnce(s: State, a: Action, addr: Addr)
    requires Reachable(s) && Enabled(s, a) && addr < |s.heap|
    ensures a.Deliver? ==> s.heap[s.threads[a.t].pc.msg].loc == Taken(a.t)
    ensures s.heap[addr].loc == Freed ==> Next(s, a).heap[addr].loc == Freed
  {
    assert HandsAt(s, a.t) && DequeAt(s, a.t) by {
      ReachableInv(s);
    }
    HeapStep(s, a);
    DequeStep(s, a, a.t);
    if s.heap[addr].loc == Freed {
      FreedStaysFreed(s, Next(s, a), a.t, addr);
    }
  }

  lemma FreedStaysFreed(s: State, s': State, t: Tid, addr: Addr)
    requires HandsAt(s, t) && DequeAt(s, t) && HeapMoves(s, s', t) && DequeMoves(s, s', t, t)
    requires addr < |s.heap| && s.heap[addr].loc == Freed
    ensures addr < |s'.heap| && s'.heap[addr].loc == Freed
  {
  }

  /** Conservation for each receiver. A dequeue that times out changes no queue
      and no message. */
  lemma NothingLost(s: State, u: Tid)
    requires Reachable(s) && u in s.threads
    ensures u in s.queues
    ensures s.queues[u].pushed == s.threads[u].delivered + s.threads[u].dropped
                                  + AsSeq(HandIn(s.threads[u].pc)) + s.queues[u].messages
    ensures |s.threads[u].dropped| <= 1
    ensures s.threads[u].dropped != [] ==> Ended(s.threads[u].pc)
    ensures Enabled(s, TimedWait(u, false)) ==>
              Next(s, TimedWait(u, false)).queues == s.queues && Next(s, TimedWait(u, false)).heap == s.heap
  {
    assert FlowAt(s, u) && u in s.queues by {
      ReachableInv(s);
    }
    TimeoutLosesNothing(s, u);
  }

  /** A sender's user is a member of its room like any other, and nobody ever takes
      from its queue. */
  lemma SenderQueueNeverDrains(s: State, u: Tid)
    requires Reachable(s) && u in s.threads && s.threads[u].role.Sender?
    ensures u in s.queues && s.queues[u].messages == s.queues[u].pushed
  {
    assert ThreadOk(s, u) by {
      ReachableInv(s);
    }
    NothingLost(s, u);
  }

  lemma TimeoutLosesNothing(s: State, u: Tid)
    ensures Enabled(s, TimedWait(u, false)) ==>
              Next(s, TimedWait(u, false)).queues == s.queues && Next(s, TimedWait(u, false)).heap == s.heap
  {
  }

  // ---- Membership

  /** A user is in the set of at most one room, and that is its thread's room; a
      user whose thread has ended is in none. */
  lemma OneRoomAtMost(s: State, u: Tid, r: Rid, q: Rid)
    requires Reachable(s) && r < |s.rooms| && q < |s.rooms|
    ensures u in s.rooms[r].members && u in s.rooms[q].members ==> r == q
    ensures u in s.rooms[r].members <==>
              u in s.threads && s.threads[u].room == Some(r) && Member(s.threads[u].pc)
    ensures u in s.threads && s.threads[u].pc.Done? ==> u !in s.rooms[r].members
  {
    assert InSet(s, u, r) <==> u in s.rooms[r].members by {
      ReachableInv(s);
    }
    assert InSet(s, u, q) <==> u in s.rooms[q].members by {
      ReachableInv(s);
    }
  }

  /** add_member never finds the user there and remove_member never misses it:
      the branches that complain on stderr are not taken. */
  lemma ComplaintsUnreachable(s: State, t: Tid)
    requires Reachable(s) && Enabled(s, UpdateMembers(t))
    ensures s.threads[t].pc.Adding? ==> t !in RoomOf(s, s.threads[t]).members
    ensures s.threads[t].pc.Removing? ==> t in RoomOf(s, s.threads[t]).members
  {
    OneRoomAtMost(s, t, s.threads[t].room.value, s.threads[t].room.value);
  }

  /** Whoever has been told that it is in a room is in the set of that room: a receiver
      from the answer to its join until a message is lost on it, a sender between two
      turns. A sender that is in no room is in no set. */
  lemma SetsFollowSessions(s: State, u: Tid, r: Rid)
    requires Reachable(s) && u in s.threads && r < |s.rooms|
    ensures var th := s.threads[u];
            && (th.role.Receiver? && |th.sent| >= 2 && th.requests != [] && ValidJoin(th.requests[0])
                && th.dropped == [] ==>
                  (u in s.rooms[r].members <==> s.rooms[r].name == th.requests[0].m.data))
            && (th.role.Sender? && th.pc.Idle? ==>
                  (u in s.rooms[r].members <==> Fold(th.username, th.requests).room == Some(s.rooms[r].name)))
  {
    OneRoomAtMost(s, u, r, r);
    assert ThreadOk(s, u) && ThreadRefs(s, s.threads[u]) by {
      ReachableInv(s);
    }
    var th := s.threads[u];
    if th.room.Some? {
      NamesTellApart(s, r, th.room.value);
    }
  }

  lemma NamesTellApart(s: State, r: Rid, q: Rid)
    requires Reachable(s) && r < |s.rooms| && q < |s.rooms|
    ensures s.rooms[r].name == s.rooms[q].name <==> r == q
  {
    ReachableInv(s);
  }

  // ---- Sessions

  /** However the threads are scheduled, a sender's session is the fold of what its
      own client has sent: between two turns its room is that of the fold, and what it
      has sent is the welcome and the fold's replies; during a turn it is a beginning
      of them; and it is over
      only after a quit or the end of the connection. */
  lemma SenderSessionIsFold(s: State, t: Tid)
    requires Reachable(s) && t in s.threads && s.threads[t].role.Sender?
    requires !s.threads[t].pc.Welcome? && !s.threads[t].pc.Refused?
    ensures var th := s.threads[t];
            var now := Fold(th.username, th.requests);
            && th.sent <= [WelcomeReply(th.username)] + now.replies
            && (th.pc.Idle? || th.pc.Done? ==> th.sent == [WelcomeReply(th.username)] + now.replies)
            && (th.pc.Idle? ==> !now.over && now.room == NameOf(s, th.room) && (now.room.Some? <==> th.room.Some?))
            && (th.pc.Done? ==> now.over && exists r :: r in th.requests && Ends(r))
  {
    assert ThreadOk(s, t) && ThreadRefs(s, s.threads[t]) by {
      ReachableInv(s);
    }
    OverOnlyByEnding(s.threads[t].username, s.threads[t].requests);
  }

  /** However the threads are scheduled, a receiver's session is decided by its one
      request: a refusal, no room and nothing ever enqueued; or the room it asked
      for, a welcome, then the Messages it took from its queue and exactly one
      complaint for each empty round. The answer to the login comes before. */
  lemma ReceiverSession(s: State, t: Tid)
    requires Reachable(s) && t in s.threads && s.threads[t].role.Receiver?
    requires s.threads[t].requests != []
    ensures t in s.queues && |s.threads[t].requests| == 1
    ensures var th, r := s.threads[t], s.threads[t].requests[0];
            if ValidJoin(r) then
              && (th.room.Some? ==> InRoom(s, th) && RoomOf(s, th).name == r.m.data)
              && (if |th.sent| == 1 then Only(th, [WelcomeReply(th.username)])
                  else && th.room.Some? && Served(th.username, th.sent) && Complaints(th.sent) == th.empties
                       && Deliveries(th.sent) == Texts(s, th.delivered))
            else
              && th.pc.Done? && th.room.None? && th.sent == [WelcomeReply(th.username), RefusalOf(r)]
              && s.queues[t].pushed == []
  {
    assert ThreadOk(s, t) && StreamAt(s, t) && ThreadRefs(s, s.threads[t]) && t in s.queues by {
      ReachableInv(s);
    }
    if Served(s.threads[t].username, s.threads[t].sent) {
      ServedAddsUp(s.threads[t].username, s.threads[t].sent);
    }
    if !ValidJoin(s.threads[t].requests[0]) && s.queues[t].pushed != [] {
      QueueIsFilteredLog(s, t);
      ReceiverHearsOneRoom(s, t, 0);
      assert false;
    }
  }

  // ---- The log

  /** With no broadcast under way towards it, a user has been given exactly the
      messages that the log assigns to it, in log order, each once. */
  lemma QueueIsFilteredLog(s: State, u: Tid)
    requires Reachable(s) && u in s.threads
    ensures u in s.queues && |s.queues[u].got| == |s.queues[u].pushed|
    ensures s.queues[u].got + AsSeq(Owed(s, u)) == Filter(s.log, u, s.threads[u].username)
    ensures forall k :: 0 <= k < |s.queues[u].got| ==>
              CarriesAt(s, s.queues[u].pushed[k], s.queues[u].got[k])
    ensures forall i, j :: 0 <= i < j < |s.queues[u].got| ==> s.queues[u].got[i] < s.queues[u].got[j]
  {
    assert LedgerAt(s, u) && FlowAt(s, u) && u in s.queues by {
      ReachableInv(s);
    }
    var name := s.threads[u].username;
    FilterIncreases(s.log, u, name);
    var f, got := Filter(s.log, u, name), s.queues[u].got;
    assert forall i :: 0 <= i < |got| ==> got[i] == f[i];
    forall k | 0 <= k < |got| ensures CarriesAt(s, s.queues[u].pushed[k], got[k]) {
      assert QueueContent(s, u, k) by {
        ReachableInv(s);
      }
    }
  }

  /** Who is given what, word for word: a user has been given a broadcast, or is about
      to be, exactly when it was a member as the broadcast got its room and has another
      name than the sender; and what it is given names the room, the sender and the
      text. */
  lemma GivenExactly(s: State, u: Tid, e: nat, k: nat)
    requires Reachable(s) && u in s.threads && e < |s.log|
    ensures u in s.queues
    ensures e in s.queues[u].got || Owed(s, u) == Some(e) <==>
              u in s.log[e].members && s.log[e].sender != s.threads[u].username
    ensures k < |s.queues[u].pushed| ==>
              && k < |s.queues[u].got| && s.queues[u].got[k] < |s.log| && s.queues[u].pushed[k] < |s.heap|
              && var x := s.log[s.queues[u].got[k]];
              && x.room < |s.rooms|
              && s.heap[s.queues[u].pushed[k]].message
                 == Messages.Message("delivery", s.rooms[x.room].name + ":" + x.sender + ":" + x.text)
  {
    QueueIsFilteredLog(s, u);
    FilterIsExact(s.log, u, s.threads[u].username, e);
    assert e in s.queues[u].got + AsSeq(Owed(s, u)) <==> e in s.queues[u].got || Owed(s, u) == Some(e);
    if k < |s.queues[u].pushed| {
      assert CarriesAt(s, s.queues[u].pushed[k], s.queues[u].got[k]);
    }
  }

  /** The deliveries in a client's stream are, in order and without gaps, the
      beginning of what the log assigns to its user. */
  lemma ClientHearsLog(s: State, u: Tid, i: nat)
    requires Reachable(s) && u in s.threads && i < |Deliveries(s.threads[u].sent)|
    ensures var f := Filter(s.log, u, s.threads[u].username);
            && i < |f| && f[i] < |s.log| && s.log[f[i]].room < |s.rooms|
            && Deliveries(s.threads[u].sent)[i] == Sent(s, f[i])
  {
    QueueIsFilteredLog(s, u);
    NothingLost(s, u);
    assert StreamAt(s, u) by {
      ReachableInv(s);
    }
    assert s.queues[u].pushed[i] == s.threads[u].delivered[i];
    assert (s.queues[u].got + AsSeq(Owed(s, u)))[i] == s.queues[u].got[i];
    assert CarriesAt(s, s.queues[u].pushed[i], s.queues[u].got[i]);
  }

  /** Any two users that were both given two broadcasts were given them in the
      same order. */
  lemma SameOrder(s: State, u: Tid, v: Tid, i: nat, j: nat, k: nat, l: nat)
    requires Reachable(s) && u in s.threads && v in s.threads && u in s.queues && v in s.queues
    requires i < |s.queues[u].got| && j < |s.queues[u].got| && k < |s.queues[v].got| && l < |s.queues[v].got|
    requires s.queues[u].got[i] == s.queues[v].got[k] && s.queues[u].got[j] == s.queues[v].got[l]
    ensures i < j <==> k < l
  {
    QueueIsFilteredLog(s, u);
    QueueIsFilteredLog(s, v);
  }

  /** Everything a receiver is ever given carries the name of the one room it joined. */
  lemma ReceiverHearsOneRoom(s: State, u: Tid, k: nat)
    requires Reachable(s) && u in s.threads && s.threads[u].role.Receiver?
    requires u in s.queues && k < |s.queues[u].pushed|
    ensures InRoom(s, s.threads[u])
    ensures k < |s.queues[u].got| && s.queues[u].pushed[k] < |s.heap|
    ensures var e := s.queues[u].got[k];
            e < |s.log| && s.heap[s.queues[u].pushed[k]].message
                           == Messages.Delivery(RoomOf(s, s.threads[u]).name, s.log[e].sender, s.log[e].text)
  {
    QueueIsFilteredLog(s, u);
    ReachableInv(s);
    var e := s.queues[u].got[k];
    assert CarriesAt(s, s.queues[u].pushed[k], e);
    var name := s.threads[u].username;
    assert e in s.queues[u].got + AsSeq(Owed(s, u));
    FilterIsExact(s.log, u, name, e);
    assert SettledAt(s, u, e);
  }

  /** The log entries of one sender, followed by what it is about to say, are the
      sendalls that its own client sent while the session was in a room: the same
      texts to the same rooms, in the same order, each once. */
  lemma LogIsWhatWasAsked(s: State, t: Tid)
    requires Reachable(s) && t in s.threads
    ensures Spoken(s.rooms, s.log, t) + Pending(s, s.threads[t])
            == if s.threads[t].role.Sender? then Asks(s.threads[t].username, s.threads[t].requests) else []
  {
    assert SpokenAt(s, t) by {
      ReachableInv(s);
    }
  }

  // ---- Acknowledgement

  /** While a sender is being told that its broadcast e reached all users, every
      eligible member has been given exactly one copy, and that copy is posted. */
  lemma AcknowledgedMeansDelivered(s: State, t: Tid, u: Tid)
    requires Reachable(s) && t in s.threads && s.threads[t].pc.AckSend?
    requires u in s.threads
    ensures s.threads[t].pc.entry < |s.log| && u in s.queues
    ensures var e := s.threads[t].pc.entry;
            Eligible(s.log[e], u, s.threads[u].username) ==>
              exists k :: 0 <= k < |s.queues[u].got| && s.queues[u].got[k] == e && k < s.queues[u].posts
                          && forall j :: 0 <= j < |s.queues[u].got| && s.queues[u].got[j] == e ==> j == k
  {
    assert AckAt(s, t) && u in s.queues by {
      ReachableInv(s);
    }
    var e, q := s.threads[t].pc.entry, s.queues[u];
    if Eligible(s.log[e], u, s.threads[u].username) {
      AckedIsGot(s, t, u);
      var k :| 0 <= k < |q.got| && q.got[k] == e;
      AckedIsPosted(s, t, u, k);
      forall j | 0 <= j < |q.got| && q.got[j] == e ensures j == k {
        SameOrder(s, u, u, j, k, k, j);
      }
    }
  }

  lemma AckedIsGot(s: State, t: Tid, u: Tid)
    requires Reachable(s) && t in s.threads && s.threads[t].pc.AckSend? && u in s.threads && u in s.queues
    requires s.threads[t].pc.entry < |s.log|
    requires Eligible(s.log[s.threads[t].pc.entry], u, s.threads[u].username)
    ensures s.threads[t].pc.entry in s.queues[u].got
  {
    QueueIsFilteredLog(s, u);
    FilterIsExact(s.log, u, s.threads[u].username, s.threads[t].pc.entry);
    assert Owed(s, u) != Some(s.threads[t].pc.entry) by {
      ReachableInv(s);
      NotOwedAnyMore(s, t, u);
    }
  }

  lemma AckedIsPosted(s: State, t: Tid, u: Tid, k: nat)
    requires Reachable(s) && t in s.threads && s.threads[t].pc.AckSend? && u in s.threads && u in s.queues
    requires k < |s.queues[u].got| && s.queues[u].got[k] == s.threads[t].pc.entry
    ensures k < s.queues[u].posts
  {
    ReachableInv(s);
    assert FlowAt(s, u);
    CopyIsPosted(s, t, u, k);
  }

  lemma NotOwedAnyMore(s: State, t: Tid, u: Tid)
    requires Inv(s) && t in s.threads && s.threads[t].pc.AckSend?
    ensures Owed(s, u) != Some(s.threads[t].pc.entry)
  {
    if Owed(s, u).Some? {
      OwedIsDebt(s, u);
      var x := RoomOf(s, s.threads[u]).lock.value;
      assert JobAt(s, x) && AckAt(s, t);
    }
  }

  /** At most one thread is between pushing to u and posting. */
  lemma LonePoster(s: State, u: Tid, x: Tid)
    requires Ready(s) && x in Posters(s, u)
    ensures |Posters(s, u)| == 1
  {
    forall y | y in Posters(s, u) ensures y == x {
      OneServer(s, x, y);
    }
    assert Posters(s, u) == {x};
  }

  lemma CopyIsPosted(s: State, t: Tid, u: Tid, k: nat)
    requires Ready(s) && LastsOk(s) && CountsOk(s) && FlowAt(s, u)
    requires t in s.threads && s.threads[t].pc.AckSend? && u in s.queues && u in s.threads
    requires k < |s.queues[u].got| && s.queues[u].got[k] == s.threads[t].pc.entry
    ensures k < s.queues[u].posts
  {
    if x :| x in Posters(s, u) {
      LonePoster(s, u, x);
      assert LastAt(s, x) && JobAt(s, x) && AckAt(s, t);
      LastIsAnother(s, t, u, x);
      if k == |s.queues[u].got| - 1 {
        assert false;
      }
    } else {
      assert Posters(s, u) == {};
    }
  }

  /** The copy that waits for its post belongs to another broadcast. */
  lemma LastIsAnother(s: State, t: Tid, u: Tid, x: Tid)
    requires t in s.threads && s.threads[t].pc.AckSend? && u in s.queues && x in Posters(s, u)
    requires LastAt(s, x) && JobAt(s, x) && AckAt(s, t)
    ensures s.queues[u].got != []
    ensures s.queues[u].got[|s.queues[u].got| - 1] != s.threads[t].pc.entry
  {
  }
}
