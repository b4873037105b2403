/** No deadlock: whoever waits for a mutex waits for a thread that can step, and
    critical sections are finite. */
module ChatProgress {
  import opened Basics
  import Connections
  import Session
  import opened Chat
  import opened ChatSteps
  import opened ChatInvariants
  import opened ChatMessages
  import opened ChatRuns
  import ChatTheorems

  /** The thread waits for a mutex that another thread holds. */
  predicate Blocked(s: State, t: Tid) {
    t in s.threads &&
    var th := s.threads[t];
    || (th.pc.WantServer? && s.serverLock.Some?)
    || (WantsRoom(th.pc) && InRoom(s, th) && RoomOf(s, th).lock.Some?)
    || ((th.pc.WantPush? || th.pc.WantPop?) && QueueOf(t, th.pc) in s.queues
        && s.queues[QueueOf(t, th.pc)].lock.Some?)
  }

  /** The holder of the mutex that a blocked thread waits for. */
  function Holder(s: State, t: Tid): Tid
    requires Blocked(s, t)
  {
    var th := s.threads[t];
    if th.pc.WantServer? then s.serverLock.value
    else if WantsRoom(th.pc) then RoomOf(s, th).lock.value
    else s.queues[QueueOf(t, th.pc)].lock.value
  }

  /** What the thread does next, if it is not blocked: one of its actions when the
      environment has a say, its only action otherwise. */
  ghost function NextAction(s: State, t: Tid): Action
    requires t in s.threads
  {
    match s.threads[t].pc
    case Welcome => SendWelcome(t, true)
    case FirstRequest => Hear(t, Session.Closed)
    case Idle => Hear(t, Session.Closed)
    case WantServer => LockServer(t)
    case Finding => FindOrCreate(t)
    case Found(_) => UnlockServer(t)
    case WantAdd => LockRoom(t)
    case WantRemove(_) => LockRoom(t)
    case WantBroadcast(_) => LockRoom(t)
    case Adding => UpdateMembers(t)
    case Removing(_) => UpdateMembers(t)
    case Added => UnlockRoom(t)
    case Removed(_) => UnlockRoom(t)
    case Fanout(job) => if job.todo == {} then UnlockRoom(t) else (var u :| u in job.todo; Visit(t, u))
    case WantPush(_, _, _) => LockQueue(t)
    case Pushing(_, _, _) => Push(t)
    case Pushed(_, _) => UnlockQueue(t)
    case Posting(_, _) => Post(t)
    case AckJoin => Acknowledge(t)
    case AckLeave => Acknowledge(t)
    case AckSend(_) => Acknowledge(t)
    case Waiting => TimedWait(t, false)
    case WantPop => LockQueue(t)
    case Popping => Pop(t)
    case Popped(_) => UnlockQueue(t)
    case Delivering(_) => Deliver(t, true)
    case Done => SendWelcome(t, false)
    case Refused => SendWelcome(t, false)
  }

  /** What the code itself waits for: its program point, a free mutex, a positive
      semaphore. Pointers, indices and queue ends are taken on trust. */
  predicate CodeAllows(s: State, a: Action) {
    a.t in s.threads &&
    var th := s.threads[a.t];
    match a
    case Arrive(t, _, _) => false
    case SendWelcome(t, _) => th.pc.Welcome?
    case Hear(t, r) => (th.pc.Idle? || th.pc.FirstRequest?) && ProperRequest(r)
    case LockServer(t) => th.pc.WantServer? && s.serverLock.None?
    case FindOrCreate(t) => th.pc.Finding?
    case UnlockServer(t) => th.pc.Found?
    case LockRoom(t) => WantsRoom(th.pc) && (InRoom(s, th) ==> RoomOf(s, th).lock.None?)
    case UpdateMembers(t) => th.pc.Adding? || th.pc.Removing?
    case UnlockRoom(t) => th.pc.Added? || th.pc.Removed? || (th.pc.Fanout? && th.pc.job.todo == {})
    case Visit(t, u) => th.pc.Fanout? && u in th.pc.job.todo
    case LockQueue(t) =>
      && (th.pc.WantPush? || th.pc.WantPop?)
      && (QueueOf(t, th.pc) in s.queues ==> s.queues[QueueOf(t, th.pc)].lock.None?)
    case Push(t) => th.pc.Pushing?
    case Pop(t) => th.pc.Popping?
    case UnlockQueue(t) => th.pc.Pushed? || th.pc.Popped?
    case Post(t) => th.pc.Posting?
    case TimedWait(t, available) => th.pc.Waiting? && (available && t in s.queues ==> s.queues[t].avail > 0)
    case Deliver(t, _) => th.pc.Delivering?
    case Acknowledge(t) => th.pc.AckJoin? || th.pc.AckLeave? || th.pc.AckSend?
  }

  lemma PointersAreGood(s: State, a: Action)
    requires CodeAllows(s, a)
    requires s.queues.Keys == s.threads.Keys && ThreadRefs(s, s.threads[a.t])
    requires HandsAt(s, a.t) && DequeAt(s, a.t)
    requires s.threads[a.t].pc.Popping? ==> s.queues[a.t].messages != []
    ensures Enabled(s, a)
  {
  }

  /** The conjuncts of Enabled about pointers, indices and queue ends never keep the
      code from going on: no null or dangling pointer is used, and front() is never
      called on an empty deque. */
  lemma GuardsNeverBite(s: State, a: Action)
    requires Reachable(s) && !a.Arrive?
    ensures Enabled(s, a) <==> CodeAllows(s, a)
  {
    if CodeAllows(s, a) {
      if s.threads[a.t].pc.Popping? {
        ChatTheorems.PopFindsMessage(s, a.t);
      }
      assert s.queues.Keys == s.threads.Keys && ThreadRefs(s, s.threads[a.t])
             && HandsAt(s, a.t) && DequeAt(s, a.t) by {
        ReachableInv(s);
      }
      PointersAreGood(s, a);
    }
  }

  /** All that the outside world can do is possible: any request that receive can
      return, either outcome of a send, a time-out at any time, and success of the wait
      whenever the semaphore is positive. */
  lemma WorldIsFree(s: State, t: Tid, r: Session.Request, sent: bool)
    requires Reachable(s) && t in s.threads
    ensures s.threads[t].pc.Welcome? ==> Enabled(s, SendWelcome(t, sent))
    ensures s.threads[t].pc.Idle? || s.threads[t].pc.FirstRequest? ==>
              (Enabled(s, Hear(t, r)) <==> !r.Line? || Connections.Receivable(r.m))
    ensures s.threads[t].pc.Waiting? ==>
              && t in s.queues && Enabled(s, TimedWait(t, false))
              && (Enabled(s, TimedWait(t, true)) <==> s.queues[t].avail >= 1)
    ensures s.threads[t].pc.Delivering? ==> Enabled(s, Deliver(t, sent))
    ensures s.threads[t].pc.Fanout? ==>
              forall u: nat :: Enabled(s, Visit(t, u)) <==> u in s.threads[t].pc.job.todo
  {
    assert t in s.queues by {
      ReachableInv(s);
    }
    GuardsNeverBite(s, SendWelcome(t, sent));
    GuardsNeverBite(s, Hear(t, r));
    GuardsNeverBite(s, TimedWait(t, false));
    GuardsNeverBite(s, TimedWait(t, true));
    GuardsNeverBite(s, Deliver(t, sent));
    forall u: nat {
      GuardsNeverBite(s, Visit(t, u));
    }
  }

  /** A thread that has not ended and does not wait for a mutex can step. */
  lemma FreeThreadSteps(s: State, t: Tid)
    requires t in s.threads && !Over(s.threads[t].pc) && !Blocked(s, t)
    requires s.queues.Keys == s.threads.Keys
    ensures CodeAllows(s, NextAction(s, t)) && !NextAction(s, t).Arrive?
  {
  }

  lemma ReachableThreadSteps(s: State, t: Tid)
    requires Reachable(s) && t in s.threads && !Over(s.threads[t].pc) && !Blocked(s, t)
    ensures Enabled(s, NextAction(s, t))
  {
    assert s.queues.Keys == s.threads.Keys by {
      ReachableInv(s);
    }
    FreeThreadSteps(s, t);
    GuardsNeverBite(s, NextAction(s, t));
  }

  /** Mutual exclusion: a mutex is held by exactly the thread inside its section. */
  lemma LocksAreSections(s: State, t: Tid, r: Rid, u: Tid)
    requires Reachable(s) && r < |s.rooms| && u in s.queues
    ensures s.serverLock == Some(t) <==> InServer(s, t)
    ensures s.rooms[r].lock == Some(t) <==> InRoomLock(s, t, r)
    ensures s.queues[u].lock == Some(t) <==> InQueueLock(s, t, u)
  {
    ReachableInv(s);
  }

  /** The order of the locks: Room::lock before MessageQueue::m_lock, and
      Server::m_lock never together with another. */
  lemma LockOrder(s: State, t: Tid, r: Rid, u: Tid)
    requires Reachable(s) && t in s.threads && r < |s.rooms| && u in s.queues
    ensures s.threads[t].pc.WantServer? || WantsRoom(s.threads[t].pc) || s.threads[t].pc.Waiting?
            || s.threads[t].pc.WantPop? ==>
              s.serverLock != Some(t) && s.rooms[r].lock != Some(t) && s.queues[u].lock != Some(t)
    ensures s.threads[t].pc.WantPush? ==>
              && s.serverLock != Some(t) && s.queues[u].lock != Some(t)
              && (s.rooms[r].lock == Some(t) <==> s.threads[t].room == Some(r))
    ensures s.serverLock == Some(t) ==> s.rooms[r].lock != Some(t) && s.queues[u].lock != Some(t)
  {
    LocksAreSections(s, t, r, u);
  }

  lemma HolderIsInside(s: State, t: Tid)
    requires ServerLockOk(s) && RoomLocksOk(s) && QueueLocksOk(s) && Blocked(s, t)
    ensures Holder(s, t) in s.threads
    ensures var pc, held := s.threads[t].pc, s.threads[Holder(s, t)].pc;
            if pc.WantServer? then HoldsServer(held)
            else if WantsRoom(pc) then HoldsRoom(held)
            else HoldsQueue(held)
  {
    var h, th := Holder(s, t), s.threads[t];
    if th.pc.WantServer? {
      assert InServer(s, h);
    } else if WantsRoom(th.pc) {
      assert InRoomLock(s, h, th.room.value);
    } else {
      assert InQueueLock(s, h, QueueOf(t, th.pc));
    }
  }

  lemma ReachableHolder(s: State, t: Tid)
    requires Reachable(s) && Blocked(s, t)
    ensures Holder(s, t) in s.threads
    ensures Critical(s.threads[Holder(s, t)].pc)
    ensures s.threads[t].pc.WantPush? ==> HoldsQueue(s.threads[Holder(s, t)].pc)
  {
    ReachableInv(s);
    HolderIsInside(s, t);
  }

  /** Inside some critical section. */
  predicate Critical(pc: PC) {
    HoldsServer(pc) || HoldsRoom(pc) || HoldsQueue(pc)
  }

  /** Inside a critical section a thread waits at most for a queue's mutex. */
  lemma InsideWaitsForQueue(s: State, h: Tid)
    requires h in s.threads && Critical(s.threads[h].pc)
    ensures !Over(s.threads[h].pc)
    ensures Blocked(s, h) ==> s.threads[h].pc.WantPush? && !HoldsQueue(s.threads[h].pc)
  {
  }

  /** Whoever waits for a mutex waits for a thread that can step, or for one that
      waits only for a queue's mutex, whose holder can step. */
  lemma NoDeadlock(s: State, t: Tid)
    requires Reachable(s) && Blocked(s, t)
    ensures Holder(s, t) in s.threads
    ensures !Blocked(s, Holder(s, t)) ==> Enabled(s, NextAction(s, Holder(s, t)))
    ensures Blocked(s, Holder(s, t)) ==>
              && s.threads[Holder(s, t)].pc.WantPush?
              && Holder(s, Holder(s, t)) in s.threads
              && Enabled(s, NextAction(s, Holder(s, Holder(s, t))))
  {
    var h := Holder(s, t);
    ReachableHolder(s, t);
    InsideWaitsForQueue(s, h);
    if Blocked(s, h) {
      ReachableHolder(s, h);
      InsideWaitsForQueue(s, Holder(s, h));
      ReachableThreadSteps(s, Holder(s, h));
    } else {
      ReachableThreadSteps(s, h);
    }
  }

  /** As long as one thread has not ended, some thread can step. */
  lemma SomebodyCanStep(s: State, t: Tid)
    requires Reachable(s) && t in s.threads && !Over(s.threads[t].pc)
    ensures exists x: nat :: x in s.threads && Enabled(s, NextAction(s, x))
  {
    if Blocked(s, t) {
      NoDeadlock(s, t);
    } else {
      ReachableThreadSteps(s, t);
    }
  }

  /** How many own steps are left until every lock is released, at most. */
  function Work(pc: PC): nat {
    match pc
    case Finding => 2
    case Found(_) => 1
    case Adding => 2
    case Added => 1
    case Removing(_) => 2
    case Removed(_) => 1
    case Fanout(job) => 1 + 5 * |job.todo|
    case WantPush(job, _, _) => 5 + 5 * |job.todo|
    case Pushing(job, _, _) => 4 + 5 * |job.todo|
    case Pushed(job, _) => 3 + 5 * |job.todo|
    case Posting(job, _) => 2 + 5 * |job.todo|
    case Popping => 2
    case Popped(_) => 1
    case _ => 0
  }

  lemma WorkShrinksInQueue(s: State, a: Action)
    requires Enabled(s, a) && OfQueue(a) && Critical(PcAt(s, a.t))
    ensures Work(PcAt(Next(s, a), a.t)) < Work(PcAt(s, a.t))
  {
    if a.Visit? {
      var todo := s.threads[a.t].pc.job.todo;
      assert |todo - {a.u}| == |todo| - 1;
    }
  }

  lemma WorkShrinksElsewhere(s: State, a: Action)
    requires Enabled(s, a) && !OfQueue(a) && Critical(PcAt(s, a.t))
    ensures Work(PcAt(Next(s, a), a.t)) < Work(PcAt(s, a.t))
  {
    assert OfServer(a) || OfRoom(a);
  }

  /** Every step of a thread inside a critical section brings it closer to the end. */
  lemma WorkShrinks(s: State, a: Action)
    requires Enabled(s, a) && Critical(PcAt(s, a.t))
    ensures Work(PcAt(Next(s, a), a.t)) < Work(PcAt(s, a.t))
  {
    if OfQueue(a) {
      WorkShrinksInQueue(s, a);
    } else {
      WorkShrinksElsewhere(s, a);
    }
  }

  lemma WorkStep(s: State, a: Action, t: Tid)
    requires Enabled(s, a) && Critical(PcAt(s, t))
    ensures One(a.t == t) + Work(PcAt(Next(s, a), t)) <= Work(PcAt(s, t))
  {
    if a.t == t {
      WorkShrinks(s, a);
    } else {
      ThreadsStep(s, a);
    }
  }

  /** How many of the actions are steps of thread t. */
  function StepsOf(actions: seq<Action>, t: Tid): nat {
    if actions == [] then 0
    else StepsOf(actions[..|actions| - 1], t) + One(actions[|actions| - 1].t == t)
  }

  /** The thread is inside a critical section all along a stretch of a run. */
  ghost predicate StaysCritical(states: seq<State>, t: Tid, i: nat, j: nat)
    requires i <= j < |states|
  {
    forall k :: i <= k <= j ==> Critical(PcAt(states[k], t))
  }

  lemma WorkStepAt(states: seq<State>, actions: seq<Action>, t: Tid, k: nat)
    requires Run(states, actions) && k < |actions| && Critical(PcAt(states[k], t))
    ensures One(actions[k].t == t) + Work(PcAt(states[k + 1], t)) <= Work(PcAt(states[k], t))
  {
    assert StepAt(states, actions, k);
    WorkStep(states[k], actions[k], t);
  }

  lemma StepsOfSnoc(actions: seq<Action>, t: Tid, i: nat, j: nat)
    requires i < j <= |actions|
    ensures StepsOf(actions[i..j], t) == StepsOf(actions[i..j - 1], t) + One(actions[j - 1].t == t)
  {
    assert actions[i..j][..j - i - 1] == actions[i..j - 1];
  }

  /** The thread's steps between two positions are paid for by its work. */
  ghost predicate Paid(states: seq<State>, actions: seq<Action>, t: Tid, i: nat, j: nat)
    requires i <= j <= |actions| < |states|
  {
    StepsOf(actions[i..j], t) + Work(PcAt(states[j], t)) <= Work(PcAt(states[i], t))
  }

  lemma PaidOnce(states: seq<State>, actions: seq<Action>, t: Tid, i: nat, j: nat)
    requires i < j <= |actions| < |states| && Paid(states, actions, t, i, j - 1)
    requires One(actions[j - 1].t == t) + Work(PcAt(states[j], t)) <= Work(PcAt(states[j - 1], t))
    ensures Paid(states, actions, t, i, j)
  {
    StepsOfSnoc(actions, t, i, j);
  }

  lemma PaidNext(states: seq<State>, actions: seq<Action>, t: Tid, i: nat, j: nat)
    requires Run(states, actions) && i < j < |states| && Critical(PcAt(states[j - 1], t))
    requires Paid(states, actions, t, i, j - 1)
    ensures Paid(states, actions, t, i, j)
  {
    WorkStepAt(states, actions, t, j - 1);
    PaidOnce(states, actions, t, i, j);
  }

  lemma PaidAtStart(states: seq<State>, actions: seq<Action>, t: Tid, i: nat)
    requires i <= |actions| < |states|
    ensures Paid(states, actions, t, i, i)
  {
    assert actions[i..i] == [];
  }

  /** A critical section lasts a bounded number of the holder's own steps, however
      the other threads are scheduled in between. */
  lemma {:induction false} CriticalSectionsEnd(states: seq<State>, actions: seq<Action>, t: Tid, i: nat, j: nat)
    requires Run(states, actions) && i <= j < |states| && StaysCritical(states, t, i, j)
    ensures Paid(states, actions, t, i, j)
    decreases j
  {
    if i < j {
      CriticalSectionsEnd(states, actions, t, i, j - 1);
      PaidNext(states, actions, t, i, j);
    } else {
      PaidAtStart(states, actions, t, i);
    }
  }
}
