/** What holds in every reachable state of the server: mutual exclusion,
    membership, the room map, and the agreement of semaphores and deques. */
module ChatInvariants {
  import opened Basics
  import Session
  import opened Chat
  import opened ChatSteps

  /** One step, by the thread t, in terms of ChatSteps. */
  ghost predicate Step(s: State, s': State, t: Tid) {
    && ThreadsMove(s, s', t)
    && ServerMoves(s, s', t)
    && NamesMove(s, s', t)
    && (forall r: nat :: RoomLockMoves(s, s', t, r))
    && (forall r: nat :: RoomSetMoves(s, s', t, r))
    && (forall u: nat :: QueueLockMoves(s, s', t, u))
    && (forall u: nat :: CountsMove(s, s', t, u))
    && (forall u: nat :: DequeMoves(s, s', t, u))
    && HeapMoves(s, s', t)
    && RecordMoves(s, s', t)
    && LogMoves(s, s', t)
  }

  lemma EnabledStep(s: State, a: Action)
    requires Enabled(s, a)
    ensures Step(s, Next(s, a), a.t)
  {
    ThreadsStep(s, a);
    ServerStep(s, a);
    NamesStep(s, a);
    forall r: nat { RoomLockStep(s, a, r); }
    forall r: nat { RoomSetStep(s, a, r); }
    forall u: nat { QueueLockStep(s, a, u); }
    forall u: nat { CountsStep(s, a, u); }
    forall u: nat { DequeStep(s, a, u); }
    HeapStep(s, a);
    RecordStep(s, a);
    LogStep(s, a);
  }

  // ---- Pointers

  /** The points at which the local `room` must not be null. */
  predicate NeedsRoom(pc: PC) {
    (Member(pc) && !pc.Idle?) || pc.WantAdd? || pc.Adding? || pc.Removed? || pc.AckLeave?
  }

  ghost predicate ThreadRefs(s: State, th: Thread) {
    && (th.room.Some? ==> th.room.value < |s.rooms|)
    && (NeedsRoom(th.pc) ==> th.room.Some?)
    && (th.pc.Found? ==> th.pc.rid < |s.rooms|)
    && (Broadcasting(th.pc) ==> th.pc.job.entry < |s.log| && th.pc.job.todo <= s.threads.Keys)
    && (th.pc.WantPush? || th.pc.Pushing? || th.pc.Pushed? || th.pc.Posting? ==> th.pc.to in s.threads)
    && (th.pc.AckSend? ==> th.pc.entry < |s.log|)
  }

  /** Every pointer points to something that exists. */
  ghost predicate RefsOk(s: State) {
    && s.queues.Keys == s.threads.Keys
    && (forall n :: n in s.names ==> s.names[n] < |s.rooms|)
    && (forall t :: t in s.threads ==> ThreadRefs(s, s.threads[t]))
    && (forall r :: 0 <= r < |s.rooms| ==> s.rooms[r].members <= s.threads.Keys)
  }

  /** What a step of thread t takes from the shared state: the room bound to its
      room name, and the members of its room. */
  ghost predicate SourcesOk(s: State, th: Thread) {
    && ThreadRefs(s, th)
    && (th.roomName in s.names ==> s.names[th.roomName] < |s.rooms|)
    && (InRoom(s, th) ==> RoomOf(s, th).members <= s.threads.Keys)
  }

  lemma ThreadRefsStepOfServer(s: State, a: Action)
    requires Enabled(s, a) && (a.t in s.threads ==> SourcesOk(s, s.threads[a.t]))
    requires OfServer(a)
    ensures ThreadRefs(Next(s, a), Next(s, a).threads[a.t])
  {
    var pc' := PcAt(Next(s, a), a.t);
    assert !Broadcasting(pc') && !pc'.AckSend?;
    assert |Next(s, a).rooms| >= |s.rooms|;
  }

  lemma ThreadRefsStepOfRoom(s: State, a: Action)
    requires Enabled(s, a) && (a.t in s.threads ==> SourcesOk(s, s.threads[a.t]))
    requires OfRoom(a)
    ensures ThreadRefs(Next(s, a), Next(s, a).threads[a.t])
  {
  }

  lemma ThreadRefsStepOfQueue(s: State, a: Action)
    requires Enabled(s, a) && (a.t in s.threads ==> SourcesOk(s, s.threads[a.t]))
    requires OfQueue(a)
    ensures ThreadRefs(Next(s, a), Next(s, a).threads[a.t])
  {
  }

  lemma ThreadRefsStepOfTalk(s: State, a: Action)
    requires Enabled(s, a) && (a.t in s.threads ==> SourcesOk(s, s.threads[a.t]))
    requires OfTalk(a)
    ensures ThreadRefs(Next(s, a), Next(s, a).threads[a.t])
  {
    var pc' := PcAt(Next(s, a), a.t);
    assert !Broadcasting(pc') && !pc'.AckSend? && !pc'.Found?;
  }

  lemma ThreadRefsStep(s: State, a: Action)
    requires Enabled(s, a) && (a.t in s.threads ==> SourcesOk(s, s.threads[a.t]))
    ensures ThreadRefs(Next(s, a), Next(s, a).threads[a.t])
  {
    if OfServer(a) {
      ThreadRefsStepOfServer(s, a);
    } else if OfRoom(a) {
      ThreadRefsStepOfRoom(s, a);
    } else if OfQueue(a) {
      ThreadRefsStepOfQueue(s, a);
    } else {
      ThreadRefsStepOfTalk(s, a);
    }
  }

  lemma RefsKept(s: State, s': State, t: Tid)
    requires RefsOk(s) && Step(s, s', t) && ThreadRefs(s', s'.threads[t])
    ensures RefsOk(s')
  {
    forall r | 0 <= r < |s'.rooms| ensures s'.rooms[r].members <= s'.threads.Keys {
      assert RoomSetMoves(s, s', t, r);
    }
    forall x | x in s'.threads ensures ThreadRefs(s', s'.threads[x]) {
    }
  }

  // ---- Mutual exclusion

  /** A mutex is held by exactly the thread that is inside its critical section. */
  ghost predicate ServerLockOk(s: State) {
    forall t: nat :: InServer(s, t) <==> s.serverLock == Some(t)
  }

  ghost predicate RoomLocksOk(s: State) {
    forall r: nat, t: nat :: r < |s.rooms| ==> (InRoomLock(s, t, r) <==> s.rooms[r].lock == Some(t))
  }

  ghost predicate QueueLocksOk(s: State) {
    forall u: nat, t: nat :: u in s.queues ==> (InQueueLock(s, t, u) <==> s.queues[u].lock == Some(t))
  }

  lemma ServerLockKept(s: State, s': State, t: Tid)
    requires ServerLockOk(s) && Step(s, s', t)
    ensures ServerLockOk(s')
  {
    forall x: nat ensures InServer(s', x) <==> s'.serverLock == Some(x) {
      assert x != t ==> InServer(s', x) == InServer(s, x);
    }
  }

  lemma RoomLocksKept(s: State, s': State, t: Tid)
    requires RefsOk(s) && RoomLocksOk(s) && Step(s, s', t)
    ensures RoomLocksOk(s')
  {
    forall r: nat, x: nat | r < |s'.rooms| ensures InRoomLock(s', x, r) <==> s'.rooms[r].lock == Some(x) {
      assert RoomLockMoves(s, s', t, r);
      assert x != t ==> InRoomLock(s', x, r) == InRoomLock(s, x, r);
      assert r < |s.rooms| ==> (InRoomLock(s, t, r) <==> s.rooms[r].lock == Some(t));
    }
  }

  lemma QueueLocksKept(s: State, s': State, t: Tid)
    requires RefsOk(s) && QueueLocksOk(s) && Step(s, s', t)
    ensures QueueLocksOk(s')
  {
    forall u: nat, x: nat | u in s'.queues ensures InQueueLock(s', x, u) <==> s'.queues[u].lock == Some(x) {
      assert QueueLockMoves(s, s', t, u);
      assert x != t ==> InQueueLock(s', x, u) == InQueueLock(s, x, u);
      assert u in s.queues ==> (InQueueLock(s, t, u) <==> s.queues[u].lock == Some(t));
      assert x in s.threads ==> ThreadRefs(s, s.threads[x]);
    }
  }

  // ---- Membership

  /** The shared sets and the local variables agree: a user is in the set of a
      room exactly when that room is its thread's and the thread is at a point
      of its code where it should be. */
  ghost predicate MembersOk(s: State) {
    forall r: nat, u: nat :: r < |s.rooms| ==> (InSet(s, u, r) <==> u in s.rooms[r].members)
  }

  lemma MembersKept(s: State, s': State, t: Tid)
    requires RefsOk(s) && MembersOk(s) && Step(s, s', t)
    ensures MembersOk(s')
  {
    forall r: nat, u: nat | r < |s'.rooms| ensures InSet(s', u, r) <==> u in s'.rooms[r].members {
      assert RoomSetMoves(s, s', t, r);
      assert u != t ==> InSet(s', u, r) == InSet(s, u, r);
    }
  }

  // ---- The room map

  /** The code between a valid join and its acknowledgement. */
  predicate Joining(pc: PC) {
    || pc.WantServer? || pc.Finding? || pc.Found? || pc.WantAdd? || pc.Adding? || pc.Added? || pc.AckJoin?
    || ((pc.WantRemove? || pc.Removing? || pc.Removed?) && pc.after.Rejoin?)
  }

  ghost predicate ThreadNames(s: State, th: Thread) {
    && (Joining(th.pc) ==> Session.ValidRoomName(th.roomName))
    && (th.pc.Found? ==> th.pc.rid < |s.rooms| && s.rooms[th.pc.rid].name == th.roomName)
    && (th.pc.WantAdd? || th.pc.Adding? || th.pc.Added? || th.pc.AckJoin? ==>
          InRoom(s, th) && RoomOf(s, th).name == th.roomName)
  }

  /** Names and rooms are in one-to-one correspondence, and every name is valid. */
  ghost predicate NamesOk(s: State) {
    && (forall n :: n in s.names ==> s.names[n] < |s.rooms| && s.rooms[s.names[n]].name == n)
    && (forall r :: 0 <= r < |s.rooms| ==>
          s.rooms[r].name in s.names && s.names[s.rooms[r].name] == r && Session.ValidRoomName(s.rooms[r].name))
    && (forall t :: t in s.threads ==> ThreadNames(s, s.threads[t]))
  }

  /** What a step of thread t takes from the room map: the room bound to its room
      name carries that name. */
  ghost predicate NameSourcesOk(s: State, th: Thread) {
    && ThreadNames(s, th)
    && (th.roomName in s.names ==>
          s.names[th.roomName] < |s.rooms| && s.rooms[s.names[th.roomName]].name == th.roomName)
  }

  lemma ThreadNamesStepOfServer(s: State, a: Action)
    requires Enabled(s, a)
    requires a.t in s.threads ==> NameSourcesOk(s, s.threads[a.t])
    requires OfServer(a)
    ensures ThreadNames(Next(s, a), Next(s, a).threads[a.t])
  {
  }

  lemma ThreadNamesStepOfRoom(s: State, a: Action)
    requires Enabled(s, a)
    requires a.t in s.threads ==> NameSourcesOk(s, s.threads[a.t])
    requires OfRoom(a)
    ensures ThreadNames(Next(s, a), Next(s, a).threads[a.t])
  {
  }

  lemma ThreadNamesStepOfQueue(s: State, a: Action)
    requires Enabled(s, a)
    requires a.t in s.threads ==> NameSourcesOk(s, s.threads[a.t])
    requires OfQueue(a)
    ensures ThreadNames(Next(s, a), Next(s, a).threads[a.t])
  {
  }

  lemma ThreadNamesStepOfTalk(s: State, a: Action)
    requires Enabled(s, a)
    requires a.t in s.threads ==> NameSourcesOk(s, s.threads[a.t])
    requires OfTalk(a)
    ensures ThreadNames(Next(s, a), Next(s, a).threads[a.t])
  {
  }

  lemma ThreadNamesStep(s: State, a: Action)
    requires Enabled(s, a)
    requires a.t in s.threads ==> NameSourcesOk(s, s.threads[a.t])
    ensures ThreadNames(Next(s, a), Next(s, a).threads[a.t])
  {
    if OfServer(a) {
      ThreadNamesStepOfServer(s, a);
    } else if OfRoom(a) {
      ThreadNamesStepOfRoom(s, a);
    } else if OfQueue(a) {
      ThreadNamesStepOfQueue(s, a);
    } else {
      ThreadNamesStepOfTalk(s, a);
    }
  }

  lemma NamesKept(s: State, s': State, t: Tid)
    requires RefsOk(s) && NamesOk(s) && Step(s, s', t) && ThreadNames(s', s'.threads[t])
    ensures NamesOk(s')
  {
    RoomNamesStay(s, s', t);
    forall x | x in s'.threads ensures ThreadNames(s', s'.threads[x]) {
      assert x != t ==> ThreadNames(s, s.threads[x]);
    }
    assert t in s.threads ==> ThreadNames(s, s.threads[t]);
  }

  lemma RoomNamesStay(s: State, s': State, t: Tid)
    requires Step(s, s', t)
    ensures |s.rooms| <= |s'.rooms|
    ensures forall r :: 0 <= r < |s.rooms| ==> s'.rooms[r].name == s.rooms[r].name
  {
    forall r | 0 <= r < |s.rooms| ensures s'.rooms[r].name == s.rooms[r].name {
      assert RoomLockMoves(s, s', t, r);
    }
  }

  // ---- Semaphores and deques

  ghost function Posters(s: State, u: Tid): set<Tid> {
    set t | t in s.threads && Posts(s, t, u)
  }

  ghost function Takers(s: State, u: Tid): set<Tid> {
    set t | t in s.threads && Takes(s, t, u)
  }

  /** What is in the deque is what the semaphore still promises, plus what
      producers have pushed and not posted, plus what consumers have been
      promised and not popped. */
  ghost predicate CountsOk(s: State) {
    forall u :: u in s.queues ==>
      && |s.queues[u].messages| == s.queues[u].avail + |Posters(s, u)| + |Takers(s, u)|
      && |s.queues[u].pushed| == s.queues[u].posts + |Posters(s, u)|
  }

  lemma Toggled(before: set<Tid>, after: set<Tid>, t: Tid)
    requires before - {t} == after - {t}
    ensures |after| + One(t in before) == |before| + One(t in after)
  {
    assert before == (before - {t}) + (if t in before then {t} else {});
    assert after == (after - {t}) + (if t in after then {t} else {});
  }

  lemma PostersMove(s: State, s': State, t: Tid, u: Tid)
    requires Step(s, s', t)
    ensures |Posters(s', u)| + One(Posts(s, t, u)) == |Posters(s, u)| + One(Posts(s', t, u))
  {
    assert Posters(s, u) - {t} == Posters(s', u) - {t};
    Toggled(Posters(s, u), Posters(s', u), t);
  }

  lemma TakersMove(s: State, s': State, t: Tid, u: Tid)
    requires Step(s, s', t)
    ensures |Takers(s', u)| + One(Takes(s, t, u)) == |Takers(s, u)| + One(Takes(s', t, u))
  {
    assert Takers(s, u) - {t} == Takers(s', u) - {t};
    Toggled(Takers(s, u), Takers(s', u), t);
  }

  lemma CountsKept(s: State, s': State, t: Tid)
    requires RefsOk(s) && RefsOk(s') && CountsOk(s) && Step(s, s', t)
    ensures CountsOk(s')
  {
    forall u | u in s'.queues
      ensures |s'.queues[u].messages| == s'.queues[u].avail + |Posters(s', u)| + |Takers(s', u)|
      ensures |s'.queues[u].pushed| == s'.queues[u].posts + |Posters(s', u)|
    {
      if u in s.queues {
        assert CountsMove(s, s', t, u);
        PostersMove(s, s', t, u);
        TakersMove(s, s', t, u);
      } else {
        NewUserHasNobody(s, s', t);
      }
    }
  }

  lemma NewUserHasNobody(s: State, s': State, t: Tid)
    requires RefsOk(s) && RefsOk(s') && Step(s, s', t) && t !in s.threads
    ensures Posters(s', t) == {} && Takers(s', t) == {}
  {
    forall x | x in s'.threads ensures !Posts(s', x, t) && !Takes(s', x, t) {
      assert x != t ==> ThreadRefs(s, s.threads[x]);
    }
  }
}
