/** What one step of the server can do to each part of the state, seen from
    outside: which mutexes, sets, counters and messages move together with the
    program counter of the thread that steps. Everything that the invariants
    need to know about a step is here. */
module ChatSteps {
  import opened Basics
  import opened Messages
  import opened Chat

  /** Inside the critical section of Server::m_lock. */
  predicate HoldsServer(pc: PC) {
    pc.Finding? || pc.Found?
  }

  /** Inside broadcast_message. */
  predicate Broadcasting(pc: PC) {
    pc.Fanout? || pc.WantPush? || pc.Pushing? || pc.Pushed? || pc.Posting?
  }

  /** Inside the critical section of the lock of the thread's room. */
  predicate HoldsRoom(pc: PC) {
    pc.Adding? || pc.Added? || pc.Removing? || pc.Removed? || Broadcasting(pc)
  }

  /** Inside the critical section of the m_lock of the queue it works on. */
  predicate HoldsQueue(pc: PC) {
    pc.Pushing? || pc.Pushed? || pc.Popping? || pc.Popped?
  }

  /** The points of its code at which a thread's user is in the set of its room. */
  predicate Member(pc: PC) {
    || pc.Added? || pc.AckJoin?
    || pc.Idle? || pc.WantBroadcast? || Broadcasting(pc) || pc.AckSend?
    || pc.Waiting? || pc.WantPop? || pc.Popping? || pc.Popped? || pc.Delivering?
    || pc.WantRemove? || pc.Removing?
  }

  /** A thread that does not exist is treated like one that has ended. */
  function PcAt(s: State, t: Tid): PC {
    if t in s.threads then s.threads[t].pc else Refused
  }

  function RoomAt(s: State, t: Tid): Option<Rid> {
    if t in s.threads then s.threads[t].room else None
  }

  predicate InServer(s: State, t: Tid) {
    HoldsServer(PcAt(s, t))
  }

  predicate InRoomLock(s: State, t: Tid, r: Rid) {
    HoldsRoom(PcAt(s, t)) && RoomAt(s, t) == Some(r)
  }

  predicate InQueueLock(s: State, t: Tid, u: Tid) {
    HoldsQueue(PcAt(s, t)) && QueueOf(t, PcAt(s, t)) == u
  }

  predicate InSet(s: State, t: Tid, r: Rid) {
    Member(PcAt(s, t)) && RoomAt(s, t) == Some(r)
  }

  /** A mutex changes hands exactly when thread t enters or leaves its section. */
  predicate LockMoves(t: Tid, inside: bool, inside': bool, lock: Option<Tid>, lock': Option<Tid>) {
    if inside == inside' then lock' == lock
    else if inside' then lock == None && lock' == Some(t)
    else lock' == None
  }

  // ---- The actions, by what they are about

  /** Server::m_lock and the room map. */
  predicate OfServer(a: Action) {
    a.LockServer? || a.FindOrCreate? || a.UnlockServer?
  }

  /** Room::lock and the set of members. */
  predicate OfRoom(a: Action) {
    a.LockRoom? || a.UpdateMembers? || a.UnlockRoom?
  }

  /** The broadcast's loop, and MessageQueue::m_lock with the deque. */
  predicate OfQueue(a: Action) {
    a.Visit? || a.LockQueue? || a.Push? || a.Pop? || a.UnlockQueue? || a.Post?
  }

  /** What a thread does without a lock: hear, wait and answer. */
  predicate OfTalk(a: Action) {
    !OfServer(a) && !OfRoom(a) && !OfQueue(a)
  }

  // ---- How the state moves

  predicate ThreadsMove(s: State, s': State, t: Tid) {
    && t in s'.threads && s'.threads == s.threads[t := s'.threads[t]]
    && (t in s.threads ==> s'.threads[t].username == s.threads[t].username
                           && s'.threads[t].role == s.threads[t].role)
    && s'.queues.Keys == (if t in s.threads then s.queues.Keys else s.queues.Keys + {t})
    && (t !in s.threads ==>
          && t !in s.queues && s'.queues[t] == NEW_QUEUE
          && s'.threads[t] == NewThread(s'.threads[t].username, s'.threads[t].role))
  }

  lemma ThreadsStep(s: State, a: Action)
    requires Enabled(s, a)
    ensures ThreadsMove(s, Next(s, a), a.t)
  {
  }

  predicate ServerMoves(s: State, s': State, t: Tid) {
    LockMoves(t, InServer(s, t), InServer(s', t), s.serverLock, s'.serverLock)
  }

  lemma ServerStep(s: State, a: Action)
    requires Enabled(s, a)
    ensures ServerMoves(s, Next(s, a), a.t)
  {
  }

  /** The room map and the list of rooms change together and only grow. */
  predicate NamesMove(s: State, s': State, t: Tid) {
    || (s'.names == s.names && |s'.rooms| == |s.rooms|)
    || (&& t in s.threads && s.threads[t].pc.Finding?
        && var n := s.threads[t].roomName;
        && n !in s.names && s'.names == s.names[n := |s.rooms|]
        && s'.rooms == s.rooms + [Room(n, None, {})]
        && !HoldsRoom(PcAt(s', t)) && !Member(PcAt(s', t)))
  }

  lemma NamesStep(s: State, a: Action)
    requires Enabled(s, a)
    ensures NamesMove(s, Next(s, a), a.t)
  {
  }

  predicate RoomLockMoves(s: State, s': State, t: Tid, r: Rid) {
    r < |s.rooms| ==>
      && r < |s'.rooms| && s'.rooms[r].name == s.rooms[r].name
      && LockMoves(t, InRoomLock(s, t, r), InRoomLock(s', t, r), s.rooms[r].lock, s'.rooms[r].lock)
  }

  lemma RoomLockStepOfServer(s: State, a: Action, r: Rid)
    requires Enabled(s, a)
    requires OfServer(a)
    ensures RoomLockMoves(s, Next(s, a), a.t, r)
  {
    assert !HoldsRoom(PcAt(s, a.t)) && !HoldsRoom(PcAt(Next(s, a), a.t));
  }

  lemma RoomLockStepOfRoom(s: State, a: Action, r: Rid)
    requires Enabled(s, a)
    requires OfRoom(a)
    ensures RoomLockMoves(s, Next(s, a), a.t, r)
  {
  }

  lemma RoomLockStepOfQueue(s: State, a: Action, r: Rid)
    requires Enabled(s, a)
    requires OfQueue(a)
    ensures RoomLockMoves(s, Next(s, a), a.t, r)
  {
  }

  lemma RoomLockStepOfTalk(s: State, a: Action, r: Rid)
    requires Enabled(s, a)
    requires OfTalk(a)
    ensures RoomLockMoves(s, Next(s, a), a.t, r)
  {
    assert !HoldsRoom(PcAt(s, a.t)) && !HoldsRoom(PcAt(Next(s, a), a.t));
  }

  lemma RoomLockStep(s: State, a: Action, r: Rid)
    requires Enabled(s, a)
    ensures RoomLockMoves(s, Next(s, a), a.t, r)
  {
    if OfServer(a) {
      RoomLockStepOfServer(s, a, r);
    } else if OfRoom(a) {
      RoomLockStepOfRoom(s, a, r);
    } else if OfQueue(a) {
      RoomLockStepOfQueue(s, a, r);
    } else {
      RoomLockStepOfTalk(s, a, r);
    }
  }

  /** A room's set gains or loses thread t exactly when t becomes or stops being
      a member, and t does that under the room's lock. */
  predicate RoomSetMoves(s: State, s': State, t: Tid, r: Rid) {
    r < |s.rooms| ==>
      && r < |s'.rooms|
      && s'.rooms[r].members == (if InSet(s, t, r) == InSet(s', t, r) then s.rooms[r].members
                                 else if InSet(s', t, r) then s.rooms[r].members + {t}
                                 else s.rooms[r].members - {t})
      && (InSet(s, t, r) != InSet(s', t, r) ==> InRoomLock(s, t, r) && InRoomLock(s', t, r))
  }

  lemma RoomSetStepOfServer(s: State, a: Action, r: Rid)
    requires Enabled(s, a)
    requires OfServer(a)
    ensures RoomSetMoves(s, Next(s, a), a.t, r)
  {
    assert !Member(PcAt(s, a.t)) && !Member(PcAt(Next(s, a), a.t));
  }

  lemma RoomSetStepOfRoom(s: State, a: Action, r: Rid)
    requires Enabled(s, a)
    requires OfRoom(a)
    ensures RoomSetMoves(s, Next(s, a), a.t, r)
  {
  }

  lemma RoomSetStepOfQueue(s: State, a: Action, r: Rid)
    requires Enabled(s, a)
    requires OfQueue(a)
    ensures RoomSetMoves(s, Next(s, a), a.t, r)
  {
  }

  lemma RoomSetStepOfTalk(s: State, a: Action, r: Rid)
    requires Enabled(s, a)
    requires OfTalk(a)
    ensures RoomSetMoves(s, Next(s, a), a.t, r)
  {
  }

  lemma RoomSetStep(s: State, a: Action, r: Rid)
    requires Enabled(s, a)
    ensures RoomSetMoves(s, Next(s, a), a.t, r)
  {
    if OfServer(a) {
      RoomSetStepOfServer(s, a, r);
    } else if OfRoom(a) {
      RoomSetStepOfRoom(s, a, r);
    } else if OfQueue(a) {
      RoomSetStepOfQueue(s, a, r);
    } else {
      RoomSetStepOfTalk(s, a, r);
    }
  }

  predicate QueueLockMoves(s: State, s': State, t: Tid, u: Tid) {
    u in s.queues ==>
      && u in s'.queues
      && LockMoves(t, InQueueLock(s, t, u), InQueueLock(s', t, u), s.queues[u].lock, s'.queues[u].lock)
  }

  lemma QueueLockStepOfServer(s: State, a: Action, u: Tid)
    requires Enabled(s, a)
    requires OfServer(a)
    ensures QueueLockMoves(s, Next(s, a), a.t, u)
  {
  }

  lemma QueueLockStepOfRoom(s: State, a: Action, u: Tid)
    requires Enabled(s, a)
    requires OfRoom(a)
    ensures QueueLockMoves(s, Next(s, a), a.t, u)
  {
  }

  lemma QueueLockStepOfQueue(s: State, a: Action, u: Tid)
    requires Enabled(s, a)
    requires OfQueue(a)
    ensures QueueLockMoves(s, Next(s, a), a.t, u)
  {
    var pc, pc' := PcAt(s, a.t), PcAt(Next(s, a), a.t);
    assert HoldsQueue(pc) == (a.Push? || a.Pop? || a.UnlockQueue?);
    assert HoldsQueue(pc') == (a.Push? || a.Pop? || a.LockQueue?);
    assert HoldsQueue(pc) && HoldsQueue(pc') ==> QueueOf(a.t, pc') == QueueOf(a.t, pc);
  }

  lemma QueueLockStepOfTalk(s: State, a: Action, u: Tid)
    requires Enabled(s, a)
    requires OfTalk(a)
    ensures QueueLockMoves(s, Next(s, a), a.t, u)
  {
  }

  lemma QueueLockStep(s: State, a: Action, u: Tid)
    requires Enabled(s, a)
    ensures QueueLockMoves(s, Next(s, a), a.t, u)
  {
    if OfServer(a) {
      QueueLockStepOfServer(s, a, u);
    } else if OfRoom(a) {
      QueueLockStepOfRoom(s, a, u);
    } else if OfQueue(a) {
      QueueLockStepOfQueue(s, a, u);
    } else {
      QueueLockStepOfTalk(s, a, u);
    }
  }

  /** Pushed to queue u but not yet posted. */
  predicate Posts(s: State, t: Tid, u: Tid) {
    (PcAt(s, t).Pushed? || PcAt(s, t).Posting?) && PcAt(s, t).to == u
  }

  /** Let through by the semaphore of queue u but not yet popped. */
  predicate Takes(s: State, t: Tid, u: Tid) {
    (PcAt(s, t).WantPop? || PcAt(s, t).Popping?) && t == u
  }

  function One(b: bool): nat {
    if b then 1 else 0
  }

  /** The semaphore and the deque move apart only by what thread t has begun. */
  predicate CountsMove(s: State, s': State, t: Tid, u: Tid) {
    u in s.queues ==>
      && u in s'.queues
      && var q, q' := s.queues[u], s'.queues[u];
      && |q.messages| + q'.avail + One(Posts(s', t, u)) + One(Takes(s', t, u))
         == |q'.messages| + q.avail + One(Posts(s, t, u)) + One(Takes(s, t, u))
      && |q.pushed| + q'.posts + One(Posts(s', t, u)) == |q'.pushed| + q.posts + One(Posts(s, t, u))
  }

  lemma CountsStepOfServer(s: State, a: Action, u: Tid)
    requires Enabled(s, a)
    requires OfServer(a)
    ensures CountsMove(s, Next(s, a), a.t, u)
  {
  }

  lemma CountsStepOfRoom(s: State, a: Action, u: Tid)
    requires Enabled(s, a)
    requires OfRoom(a)
    ensures CountsMove(s, Next(s, a), a.t, u)
  {
  }

  lemma CountsStepOfQueue(s: State, a: Action, u: Tid)
    requires Enabled(s, a)
    requires OfQueue(a)
    ensures CountsMove(s, Next(s, a), a.t, u)
  {
  }

  lemma CountsStepOfTalk(s: State, a: Action, u: Tid)
    requires Enabled(s, a)
    requires OfTalk(a)
    ensures CountsMove(s, Next(s, a), a.t, u)
  {
  }

  lemma CountsStep(s: State, a: Action, u: Tid)
    requires Enabled(s, a)
    ensures CountsMove(s, Next(s, a), a.t, u)
  {
    if OfServer(a) {
      CountsStepOfServer(s, a, u);
    } else if OfRoom(a) {
      CountsStepOfRoom(s, a, u);
    } else if OfQueue(a) {
      CountsStepOfQueue(s, a, u);
    } else {
      CountsStepOfTalk(s, a, u);
    }
  }

  /** The Message in the hand of a broadcasting thread. */
  function HandOut(pc: PC): Option<Addr> {
    if pc.WantPush? || pc.Pushing? then Some(pc.msg) else None
  }

  /** The Message in the hand of a delivering thread. */
  function HandIn(pc: PC): Option<Addr> {
    if pc.Popped? || pc.Delivering? then Some(pc.msg) else None
  }

  predicate Pushes(s: State, s': State, t: Tid) {
    PcAt(s, t).Pushing? && PcAt(s', t).Pushed?
  }

  predicate Pops(s: State, s': State, t: Tid) {
    PcAt(s, t).Popping? && PcAt(s', t).Popped?
  }

  /** The deque and its history move by whole messages. */
  predicate DequeMoves(s: State, s': State, t: Tid, u: Tid) {
    u in s.queues ==>
      && u in s'.queues
      && var q, q' := s.queues[u], s'.queues[u];
      if Pushes(s, s', t) && PcAt(s, t).to == u then
        && q'.messages == q.messages + [PcAt(s, t).msg]
        && q'.pushed == q.pushed + [PcAt(s, t).msg]
        && q'.got == q.got + [PcAt(s, t).job.entry]
      else
        && q'.pushed == q.pushed && q'.got == q.got
        && if Pops(s, s', t) && t == u then
             q.messages != [] && q'.messages == q.messages[1..] && PcAt(s', t).msg == q.messages[0]
           else q'.messages == q.messages
  }

  lemma DequeStep(s: State, a: Action, u: Tid)
    requires Enabled(s, a)
    ensures DequeMoves(s, Next(s, a), a.t, u)
  {
  }

  predicate Relocates(s: State, s': State, a: Addr, loc: Loc) {
    a < |s.heap| && s'.heap == s.heap[a := s.heap[a].(loc := loc)]
  }

  /** A Message is allocated into a hand, moves from there to a queue, from the
      queue to the hand of the receiver, and is deleted there. */
  predicate HeapMoves(s: State, s': State, t: Tid) {
    var out, out', taken, taken' := HandOut(PcAt(s, t)), HandOut(PcAt(s', t)), HandIn(PcAt(s, t)), HandIn(PcAt(s', t));
    if Pushes(s, s', t) then
      taken == taken' == None && out' == None && Relocates(s, s', PcAt(s, t).msg, Queued(PcAt(s, t).to))
      && PcAt(s, t).to in s.queues
    else if Pops(s, s', t) then
      out == out' == None && taken == None && Relocates(s, s', PcAt(s', t).msg, Taken(t)) && t in s.queues
    else if taken != taken' then
      out == out' == None && PcAt(s, t).Delivering? && taken' == None && Relocates(s, s', taken.value, Freed)
    else if out != out' then
      taken == None && out == None && out' == Some(|s.heap|)
      && |s'.heap| == |s.heap| + 1 && s'.heap[..|s.heap|] == s.heap && s'.heap[|s.heap|].loc == Held(t)
      && s'.heap[|s.heap|].message.tag == TAG_DELIVERY
    else s'.heap == s.heap
  }

  lemma HeapStepOfServer(s: State, a: Action)
    requires Enabled(s, a)
    requires OfServer(a)
    ensures HeapMoves(s, Next(s, a), a.t)
  {
  }

  lemma HeapStepOfRoom(s: State, a: Action)
    requires Enabled(s, a)
    requires OfRoom(a)
    ensures HeapMoves(s, Next(s, a), a.t)
  {
  }

  lemma HeapStepOfQueue(s: State, a: Action)
    requires Enabled(s, a)
    requires OfQueue(a)
    ensures HeapMoves(s, Next(s, a), a.t)
  {
  }

  lemma HeapStepOfTalk(s: State, a: Action)
    requires Enabled(s, a)
    requires OfTalk(a)
    ensures HeapMoves(s, Next(s, a), a.t)
  {
  }

  lemma HeapStep(s: State, a: Action)
    requires Enabled(s, a)
    ensures HeapMoves(s, Next(s, a), a.t)
  {
    if OfServer(a) {
      HeapStepOfServer(s, a);
    } else if OfRoom(a) {
      HeapStepOfRoom(s, a);
    } else if OfQueue(a) {
      HeapStepOfQueue(s, a);
    } else {
      HeapStepOfTalk(s, a);
    }
  }

  /** The thread has returned from worker. */
  predicate Over(pc: PC) {
    pc.Done? || pc.Refused?
  }

  /** After the delivery loop: leaving the room, and gone. */
  predicate Ended(pc: PC) {
    ((pc.WantRemove? || pc.Removing? || pc.Removed?) && pc.after.Exit?) || pc.Done?
  }

  /** The thread's own record of what it has done with the messages it took. */
  predicate RecordMoves(s: State, s': State, t: Tid) {
    t in s.threads && t in s'.threads ==>
      var th, th' := s.threads[t], s'.threads[t];
      && th.requests <= th'.requests
      && if th.pc.Delivering? then
        if th'.pc.Waiting? then th'.delivered == th.delivered + [th.pc.msg] && th'.dropped == th.dropped
        else th'.pc == WantRemove(Exit) && th'.delivered == th.delivered && th'.dropped == th.dropped + [th.pc.msg]
      else
        && th'.delivered == th.delivered && th'.dropped == th.dropped
        && (Ended(th.pc) ==> Ended(th'.pc))
  }

  lemma RecordStep(s: State, a: Action)
    requires Enabled(s, a)
    ensures RecordMoves(s, Next(s, a), a.t)
  {
  }

  /** A message from the queue is sent as it is; everything else that is sent is not
      a delivery. */
  predicate SentMoves(s: State, s': State, t: Tid) {
    t in s.threads && t in s'.threads ==>
      var th, th' := s.threads[t], s'.threads[t];
      if th.pc.Delivering? && th'.pc.Waiting? then
        th.pc.msg < |s.heap| && th'.sent == th.sent + [s.heap[th.pc.msg].message]
      else
        && th.sent <= th'.sent
        && forall i :: |th.sent| <= i < |th'.sent| ==> th'.sent[i].tag != TAG_DELIVERY
  }

  lemma SentStepOfServer(s: State, a: Action)
    requires Enabled(s, a)
    requires OfServer(a)
    ensures SentMoves(s, Next(s, a), a.t)
  {
  }

  lemma SentStepOfRoom(s: State, a: Action)
    requires Enabled(s, a)
    requires OfRoom(a)
    ensures SentMoves(s, Next(s, a), a.t)
  {
  }

  lemma SentStepOfQueue(s: State, a: Action)
    requires Enabled(s, a)
    requires OfQueue(a)
    ensures SentMoves(s, Next(s, a), a.t)
  {
  }

  lemma SentStepOfTalk(s: State, a: Action)
    requires Enabled(s, a)
    requires OfTalk(a)
    ensures SentMoves(s, Next(s, a), a.t)
  {
  }

  lemma SentStep(s: State, a: Action)
    requires Enabled(s, a)
    ensures SentMoves(s, Next(s, a), a.t)
  {
    if OfServer(a) {
      SentStepOfServer(s, a);
    } else if OfRoom(a) {
      SentStepOfRoom(s, a);
    } else if OfQueue(a) {
      SentStepOfQueue(s, a);
    } else {
      SentStepOfTalk(s, a);
    }
  }

  /** How the outside world decides: a welcome that cannot be sent ends the thread,
      the semaphore lets a receiver through or leaves it where it is with a complaint,
      and a delivery that cannot be sent takes the receiver out of its room. */
  lemma OutcomesDecide(s: State, a: Action)
    requires Enabled(s, a) && (a.SendWelcome? || a.TimedWait? || a.Deliver?)
    ensures a.t in Next(s, a).threads
    ensures var th, th' := s.threads[a.t], Next(s, a).threads[a.t];
            && (a.SendWelcome? ==>
                  if a.sent then
                    th'.sent == th.sent + [Message("ok", "Welcome " + th.username + "!")] && !th'.pc.Refused?
                  else th'.sent == th.sent && th'.pc.Refused?)
            && (a.TimedWait? ==>
                  if a.available then th'.pc.WantPop? && th'.sent == th.sent
                  else th'.pc.Waiting? && th'.sent == th.sent + [Message("err", "Empty error")])
            && (a.Deliver? ==>
                  if a.sent then th'.pc.Waiting? && th'.sent == th.sent + [s.heap[th.pc.msg].message]
                  else th'.pc == WantRemove(Exit) && th'.sent == th.sent)
  {
  }

  /** The log grows exactly when a broadcast gets its room. */
  predicate LogMoves(s: State, s': State, t: Tid) {
    if PcAt(s, t).WantBroadcast? && PcAt(s', t).Fanout? then
      && InRoom(s, s.threads[t])
      && var room := RoomOf(s, s.threads[t]);
      && var th := s.threads[t];
      && s'.log == s.log + [Entry(th.room.value, t, th.username, th.pc.text, room.members)]
      && PcAt(s', t).job == Job(th.pc.text, room.members, |s.log|)
    else s'.log == s.log
  }

  lemma LogStep(s: State, a: Action)
    requires Enabled(s, a)
    ensures LogMoves(s, Next(s, a), a.t)
  {
  }
}
