/** The running server as a transition system: any number of client threads,
    each owning one User with one MessageQueue, interleaved one shared action
    at a time (server.cpp, room.cpp, message_queue.cpp, guard.h).

    A thread and its User share one identity. Fields marked "history" are
    written and never read by a step: they only record the past. */
module Chat {
  import opened Basics
  import ClientUtil
  import opened Messages
  import Connections
  import opened Session

  type Tid = nat
  type Rid = nat
  type Addr = nat

  /** What follows the removal of the user from its room. */
  datatype After = Rejoin | KeepOut | Exit

  /** A broadcast in progress: the text, the members the iterator has not
      reached, and (history) the position of this broadcast in the log. */
  datatype Job = Job(text: string, todo: set<Tid>, entry: nat)

  datatype PC =
      // worker: the welcome; the receiver's only request
    | Welcome | FirstRequest
      // chat_with_sender: waiting for a request
    | Idle
      // find_or_create_room, under Server::m_lock
    | WantServer | Finding | Found(rid: Rid)
      // add_member and remove_member, under Room::lock
    | WantAdd | Adding | Added
    | WantRemove(after: After) | Removing(after: After) | Removed(after: After)
      // broadcast_message, under Room::lock; enqueue, under the queue's m_lock
    | WantBroadcast(text: string) | Fanout(job: Job)
    | WantPush(job: Job, to: Tid, msg: Addr) | Pushing(job: Job, to: Tid, msg: Addr)
    | Pushed(job: Job, to: Tid) | Posting(job: Job, to: Tid)
      // replies that follow a shared action
    | AckJoin | AckLeave | AckSend(entry: nat)
      // the delivery loop of chat_with_receiver; dequeue, under m_lock
    | Waiting | WantPop | Popping | Popped(msg: Addr) | Delivering(msg: Addr)
      // the end: normal, or because the welcome could not be sent
    | Done | Refused

  datatype Thread = Thread(
    username: string,
    role: Role,
    room: Option<Rid>,
    roomName: string,          // the local roomName of the last valid join
    pc: PC,
    requests: seq<Request>,    // history: what the sender loop has received
    sent: seq<Message>,        // history: everything sent to the client, in order
    empties: nat,              // history: rounds of the delivery loop without a message
    delivered: seq<Addr>,      // history: the Messages among it that came from the queue
    dropped: seq<Addr>)        // history: messages deleted after a failed send

  datatype Queue = Queue(
    lock: Option<Tid>,
    avail: nat,                // the semaphore m_avail
    messages: seq<Addr>,       // the deque m_messages
    pushed: seq<Addr>,         // history: everything ever enqueued
    got: seq<nat>,             // history: the log position of each of those
    posts: nat)                // history: sem_post calls

  datatype Room = Room(name: string, lock: Option<Tid>, members: set<Tid>)

  /** Where an allocated Message is. `Freed` is the effect of `delete`. */
  datatype Loc = Held(t: Tid) | Queued(u: Tid) | Taken(t: Tid) | Freed

  datatype Cell = Cell(message: Message, loc: Loc)

  /** One broadcast, recorded when its room lock is acquired. */
  datatype Entry = Entry(room: Rid, author: Tid, sender: string, text: string, members: set<Tid>)

  datatype State = State(
    threads: map<Tid, Thread>,
    serverLock: Option<Tid>,
    names: map<string, Rid>,   // Server::m_rooms
    rooms: seq<Room>,          // every Room ever allocated
    queues: map<Tid, Queue>,   // the mqueue of each thread's User
    heap: seq<Cell>,           // every Message ever allocated by a broadcast
    log: seq<Entry>)           // history

  const INIT := State(map[], None, map[], [], map[], [], [])

  const NEW_QUEUE := Queue(None, 0, [], [], [], 0)

  function NewThread(username: string, role: Role): Thread {
    Thread(username, role, None, "", Welcome, [], [], 0, [], [])
  }

  /** The same state after thread t has become `th`. */
  function Put(s: State, t: Tid, th: Thread): State {
    s.(threads := s.threads[t := th])
  }

  /** What a chat loop decides on a request: where to go on, which room name to
      remember, and what to answer at once. */
  datatype Decision = Decision(pc: PC, roomName: string, said: seq<Message>)

  /** One turn of the loop of chat_with_sender up to its first shared action. When
      the loop ends, the user is removed from its room, if it has one. */
  function OnRequest(room: Option<Rid>, roomName: string, r: Request): (d: Decision)
    ensures d.pc.Idle? || d.pc.WantRemove? || d.pc.WantBroadcast? || d.pc.WantServer? || d.pc.Done?
    ensures d.pc.WantRemove? || d.pc.WantBroadcast? ==> room.Some?
    ensures d.pc.WantServer? || d.pc.Done? ==> room.None?
  {
    var leave := if room.Some? then WantRemove(Exit) else Done;
    match r
    case Malformed => Decision(Idle, roomName, [BAD_LINE_REPLY, BAD_TAG_REPLY])
    case Closed => Decision(leave, roomName, [CLOSED_REPLY])
    case Line(m) =>
      if m.tag == TAG_JOIN then
        if !ValidRoomName(m.data) then Decision(Idle, roomName, [BAD_ROOM_REPLY])
        else Decision(if room.Some? then WantRemove(Rejoin) else WantServer, m.data, [])
      else if m.tag == TAG_LEAVE then
        if room.None? then Decision(Idle, roomName, [NO_ROOM_REPLY])
        else Decision(WantRemove(KeepOut), roomName, [])
      else if m.tag == TAG_QUIT then Decision(leave, roomName, [QUIT_REPLY])
      else if m.tag == TAG_SENDALL then
        if room.None? then Decision(Idle, roomName, [NO_ROOM_REPLY])
        else Decision(WantBroadcast(m.data), roomName, [])
      else Decision(Idle, roomName, [BAD_TAG_REPLY])
  }

  /** The start of chat_with_receiver: one request, which must be a valid join. */
  function OnFirstRequest(roomName: string, r: Request): (d: Decision)
    ensures d.pc.WantServer? || d.pc.Done?
  {
    match r
    case Malformed => Decision(Done, roomName, [BAD_LINE_REPLY])
    case Closed => Decision(Done, roomName, [CLOSED_REPLY])
    case Line(m) =>
      if m.tag != TAG_JOIN then Decision(Done, roomName, [NO_JOIN_REPLY])
      else if !ValidRoomName(m.data) then Decision(Done, roomName, [BAD_ROOM_REPLY])
      else Decision(WantServer, m.data, [])
  }

  /** What a client can make a thread receive. */
  predicate ProperRequest(r: Request) {
    r.Line? ==> Connections.Receivable(r.m)
  }

  predicate WantsRoom(pc: PC) {
    pc.WantAdd? || pc.WantRemove? || pc.WantBroadcast?
  }

  /** The queue that a thread at `pc` of enqueue or dequeue works on. */
  function QueueOf(t: Tid, pc: PC): Tid {
    match pc
    case WantPush(_, to, _) => to
    case Pushing(_, to, _) => to
    case Pushed(_, to) => to
    case Posting(_, to) => to
    case _ => t
  }

  /** The thread's local `room` points to an allocated Room. */
  predicate InRoom(s: State, th: Thread) {
    th.room.Some? && th.room.value < |s.rooms|
  }

  function RoomOf(s: State, th: Thread): Room
    requires InRoom(s, th)
  {
    s.rooms[th.room.value]
  }

  function PutRoom(s: State, th: Thread, r: Room): State
    requires InRoom(s, th)
  {
    s.(rooms := s.rooms[th.room.value := r])
  }

  datatype Action =
    | Arrive(t: Tid, username: string, role: Role)
    | SendWelcome(t: Tid, sent: bool)
    | Hear(t: Tid, r: Request)
    | LockServer(t: Tid) | FindOrCreate(t: Tid) | UnlockServer(t: Tid)
    | LockRoom(t: Tid) | UpdateMembers(t: Tid) | UnlockRoom(t: Tid)
    | Visit(t: Tid, u: Tid)
    | LockQueue(t: Tid) | Push(t: Tid) | Pop(t: Tid) | UnlockQueue(t: Tid)
    | Post(t: Tid) | TimedWait(t: Tid, available: bool)
    | Deliver(t: Tid, sent: bool)
    | Acknowledge(t: Tid)

  /** When an action can happen: the thread is at that point of its code and
      the mutex or the semaphore lets it through. The remaining conjuncts say
      that pointers point to something; they hold in every reachable state. */
  predicate Enabled(s: State, a: Action) {
    if a.Arrive? then
      && a.t !in s.threads && a.t !in s.queues
      && ClientUtil.RTrim(a.username) == a.username && Connections.Clean(a.username)
    else
      a.t in s.threads && EnabledAt(s, a, s.threads[a.t])
  }

  predicate EnabledAt(s: State, a: Action, th: Thread) {
    match a
    case Arrive(t, _, _) => false
    case SendWelcome(t, sent) => th.pc.Welcome?
    case Hear(t, r) => (th.pc.Idle? || th.pc.FirstRequest?) && ProperRequest(r)
    case LockServer(t) => th.pc.WantServer? && s.serverLock.None?
    case FindOrCreate(t) => th.pc.Finding?
    case UnlockServer(t) => th.pc.Found?
    case LockRoom(t) => WantsRoom(th.pc) && InRoom(s, th) && RoomOf(s, th).lock.None?
    case UpdateMembers(t) => (th.pc.Adding? || th.pc.Removing?) && InRoom(s, th)
    case UnlockRoom(t) =>
      (th.pc.Added? || th.pc.Removed? || (th.pc.Fanout? && th.pc.job.todo == {})) && InRoom(s, th)
    case Visit(t, u) => th.pc.Fanout? && u in th.pc.job.todo && u in s.threads && InRoom(s, th)
    case LockQueue(t) =>
      && (th.pc.WantPush? || th.pc.WantPop?)
      && QueueOf(t, th.pc) in s.queues && s.queues[QueueOf(t, th.pc)].lock.None?
    case Push(t) => th.pc.Pushing? && th.pc.to in s.queues && th.pc.msg < |s.heap|
    case Pop(t) =>
      th.pc.Popping? && t in s.queues && s.queues[t].messages != [] && s.queues[t].messages[0] < |s.heap|
    case UnlockQueue(t) => (th.pc.Pushed? || th.pc.Popped?) && QueueOf(t, th.pc) in s.queues
    case Post(t) => th.pc.Posting? && th.pc.to in s.queues
    case TimedWait(t, available) =>
      th.pc.Waiting? && t in s.queues && (available ==> s.queues[t].avail > 0)
    case Deliver(t, sent) => th.pc.Delivering? && th.pc.msg < |s.heap|
    case Acknowledge(t) => th.pc.AckJoin? || (th.pc.AckLeave? && InRoom(s, th)) || th.pc.AckSend?
  }

  /** The state after an enabled action. */
  function Next(s: State, a: Action): State
    requires Enabled(s, a)
  {
    match a
    case Arrive(t, username, role) => DoArrive(s, t, username, role)
    case SendWelcome(t, sent) => DoWelcome(s, t, sent)
    case Hear(t, r) => DoHear(s, t, r)
    case LockServer(t) => Put(s, t, s.threads[t].(pc := Finding)).(serverLock := Some(t))
    case FindOrCreate(t) => DoFind(s, t)
    case UnlockServer(t) => DoUnlockServer(s, t)
    case LockRoom(t) => DoLockRoom(s, t)
    case UpdateMembers(t) => DoUpdateMembers(s, t)
    case UnlockRoom(t) => DoUnlockRoom(s, t)
    case Visit(t, u) => DoVisit(s, t, u)
    case LockQueue(t) => DoLockQueue(s, t)
    case Push(t) => DoPush(s, t)
    case Pop(t) => DoPop(s, t)
    case UnlockQueue(t) => DoUnlockQueue(s, t)
    case Post(t) => DoPost(s, t)
    case TimedWait(t, available) => DoTimedWait(s, t, available)
    case Deliver(t, sent) => DoDeliver(s, t, sent)
    case Acknowledge(t) => DoAcknowledge(s, t)
  }

  /** A client has logged in: a fresh User with an empty queue. */
  function DoArrive(s: State, t: Tid, username: string, role: Role): State {
    Put(s, t, NewThread(username, role)).(queues := s.queues[t := NEW_QUEUE])
  }

  function DoWelcome(s: State, t: Tid, sent: bool): State
    requires t in s.threads
  {
    var th := s.threads[t];
    Put(s, t, th.(room := None, sent := if sent then th.sent + [WelcomeReply(th.username)] else th.sent,
                  pc := if !sent then Refused else if th.role.Sender? then Idle else FirstRequest))
  }

  function DoHear(s: State, t: Tid, r: Request): State
    requires t in s.threads
  {
    var th := s.threads[t];
    var d := if th.pc.Idle? then OnRequest(th.room, th.roomName, r) else OnFirstRequest(th.roomName, r);
    Put(s, t, th.(pc := d.pc, roomName := d.roomName, sent := th.sent + d.said,
                  requests := th.requests + [r]))
  }

  function DoFind(s: State, t: Tid): State
    requires t in s.threads
  {
    var th := s.threads[t];
    if th.roomName in s.names then
      Put(s, t, th.(pc := Found(s.names[th.roomName])))
    else
      Put(s, t, th.(pc := Found(|s.rooms|))).(
        names := s.names[th.roomName := |s.rooms|],
        rooms := s.rooms + [Room(th.roomName, None, {})])
  }

  function DoUnlockServer(s: State, t: Tid): State
    requires t in s.threads && s.threads[t].pc.Found?
  {
    var th := s.threads[t];
    Put(s, t, th.(room := Some(th.pc.rid), pc := WantAdd)).(serverLock := None)
  }

  function InsideRoom(s: State, th: Thread): PC
    requires InRoom(s, th) && WantsRoom(th.pc)
  {
    match th.pc
    case WantAdd => Adding
    case WantRemove(after) => Removing(after)
    case WantBroadcast(text) => Fanout(Job(text, RoomOf(s, th).members, |s.log|))
  }

  /** The broadcast takes effect in the log when it gets the room. */
  function DoLockRoom(s: State, t: Tid): State
    requires t in s.threads && InRoom(s, s.threads[t]) && WantsRoom(s.threads[t].pc)
  {
    var th := s.threads[t];
    var room := RoomOf(s, th);
    Put(PutRoom(s, th, room.(lock := Some(t))), t, th.(pc := InsideRoom(s, th))).(
      log := if th.pc.WantBroadcast?
             then s.log + [Entry(th.room.value, t, th.username, th.pc.text, room.members)] else s.log)
  }

  function DoUpdateMembers(s: State, t: Tid): State
    requires t in s.threads && InRoom(s, s.threads[t])
    requires s.threads[t].pc.Adding? || s.threads[t].pc.Removing?
  {
    var th := s.threads[t];
    var room := RoomOf(s, th);
    var joins := th.pc.Adding?;
    Put(PutRoom(s, th, room.(members := if joins then room.members + {t} else room.members - {t})), t,
        th.(pc := if joins then Added else Removed(th.pc.after)))
  }

  function AfterUnlock(th: Thread): PC
    requires th.pc.Added? || th.pc.Removed? || th.pc.Fanout?
  {
    match th.pc
    case Added => AckJoin
    case Removed(Rejoin) => WantServer
    case Removed(KeepOut) => AckLeave
    case Removed(Exit) => Done
    case Fanout(job) => AckSend(job.entry)
  }

  function DoUnlockRoom(s: State, t: Tid): State
    requires t in s.threads && InRoom(s, s.threads[t])
    requires s.threads[t].pc.Added? || s.threads[t].pc.Removed? || s.threads[t].pc.Fanout?
  {
    var th := s.threads[t];
    Put(PutRoom(s, th, RoomOf(s, th).(lock := None)), t, th.(pc := AfterUnlock(th)))
  }

  /** The iterator reaches member u: skip it, or allocate a Message for it. */
  function DoVisit(s: State, t: Tid, u: Tid): State
    requires t in s.threads && InRoom(s, s.threads[t]) && s.threads[t].pc.Fanout? && u in s.threads
  {
    var th := s.threads[t];
    var job := th.pc.job.(todo := th.pc.job.todo - {u});
    var m := Delivery(RoomOf(s, th).name, th.username, job.text);
    var wanted := s.threads[u].username != th.username;
    Put(s, t, th.(pc := if wanted then WantPush(job, u, |s.heap|) else Fanout(job))).(
      heap := if wanted then s.heap + [Cell(m, Held(t))] else s.heap)
  }

  function DoLockQueue(s: State, t: Tid): State
    requires t in s.threads && QueueOf(t, s.threads[t].pc) in s.queues
    requires s.threads[t].pc.WantPush? || s.threads[t].pc.WantPop?
  {
    var th := s.threads[t];
    var u := QueueOf(t, th.pc);
    var pc := if th.pc.WantPush? then Pushing(th.pc.job, th.pc.to, th.pc.msg) else Popping;
    Put(s, t, th.(pc := pc)).(queues := s.queues[u := s.queues[u].(lock := Some(t))])
  }

  function DoPush(s: State, t: Tid): State
    requires t in s.threads && s.threads[t].pc.Pushing?
    requires s.threads[t].pc.to in s.queues && s.threads[t].pc.msg < |s.heap|
  {
    var th := s.threads[t];
    var job, u, a := th.pc.job, th.pc.to, th.pc.msg;
    var q := s.queues[u];
    Put(s, t, th.(pc := Pushed(job, u))).(
      queues := s.queues[u := q.(messages := q.messages + [a], pushed := q.pushed + [a], got := q.got + [job.entry])],
      heap := s.heap[a := s.heap[a].(loc := Queued(u))])
  }

  function DoPop(s: State, t: Tid): State
    requires t in s.threads && t in s.queues && s.queues[t].messages != [] && s.queues[t].messages[0] < |s.heap|
  {
    var q := s.queues[t];
    var a := q.messages[0];
    Put(s, t, s.threads[t].(pc := Popped(a))).(
      queues := s.queues[t := q.(messages := q.messages[1..])],
      heap := s.heap[a := s.heap[a].(loc := Taken(t))])
  }

  function DoUnlockQueue(s: State, t: Tid): State
    requires t in s.threads && QueueOf(t, s.threads[t].pc) in s.queues
    requires s.threads[t].pc.Pushed? || s.threads[t].pc.Popped?
  {
    var th := s.threads[t];
    var u := QueueOf(t, th.pc);
    var pc := if th.pc.Pushed? then Posting(th.pc.job, th.pc.to) else Delivering(th.pc.msg);
    Put(s, t, th.(pc := pc)).(queues := s.queues[u := s.queues[u].(lock := None)])
  }

  function DoPost(s: State, t: Tid): State
    requires t in s.threads && s.threads[t].pc.Posting? && s.threads[t].pc.to in s.queues
  {
    var th := s.threads[t];
    var u := th.pc.to;
    var q := s.queues[u];
    Put(s, t, th.(pc := Fanout(th.pc.job))).(
      queues := s.queues[u := q.(avail := q.avail + 1, posts := q.posts + 1)])
  }

  /** sem_timedwait: it may fail at any time, and succeed while the count is positive. */
  function DoTimedWait(s: State, t: Tid, available: bool): State
    requires t in s.threads && t in s.queues && (available ==> s.queues[t].avail > 0)
  {
    var th, q := s.threads[t], s.queues[t];
    if available then
      Put(s, t, th.(pc := WantPop)).(queues := s.queues[t := q.(avail := q.avail - 1)])
    else
      Put(s, t, th.(sent := th.sent + [EMPTY_REPLY], empties := th.empties + 1))
  }

  /** Send the message to the client and delete it; a failed send ends the loop. */
  function DoDeliver(s: State, t: Tid, sent: bool): State
    requires t in s.threads && s.threads[t].pc.Delivering? && s.threads[t].pc.msg < |s.heap|
  {
    var th := s.threads[t];
    var a := th.pc.msg;
    Put(s, t, if sent then th.(pc := Waiting, delivered := th.delivered + [a], sent := th.sent + [s.heap[a].message])
              else th.(pc := WantRemove(Exit), dropped := th.dropped + [a])).(
      heap := s.heap[a := s.heap[a].(loc := Freed)])
  }

  /** The reply that ends a turn. */
  function Acknowledgement(s: State, th: Thread): Message
    requires th.pc.AckJoin? || (th.pc.AckLeave? && InRoom(s, th)) || th.pc.AckSend?
  {
    match th.pc
    case AckJoin => if th.role.Sender? then JoinedReply(th.roomName) else JOINED_ROOM_REPLY
    case AckLeave => LeftReply(th.username, RoomOf(s, th).name)
    case AckSend(_) => SENT_REPLY
  }

  function DoAcknowledge(s: State, t: Tid): State
    requires t in s.threads
    requires s.threads[t].pc.AckJoin? || (s.threads[t].pc.AckLeave? && InRoom(s, s.threads[t]))
             || s.threads[t].pc.AckSend?
  {
    var th := s.threads[t];
    Put(s, t, th.(
      sent := th.sent + [Acknowledgement(s, th)],
      room := if th.pc.AckLeave? then None else th.room,
      pc := if th.pc.AckJoin? && th.role.Receiver? then Waiting else Idle))
  }
}
