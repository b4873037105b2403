/** The chat server as its users think of it: people log in, ask, and are answered;
    they sit in rooms, a broadcast reaches everyone in the room at once, and every
    inbox is first in, first out. There are no threads, locks, semaphores, rooms as
    objects, or memory. */
module AtomicChat {
  import opened Basics
  import opened Messages
  import opened Session

  type Uid = nat

  datatype Person = Person(
    name: string,
    role: Role,
    asked: seq<Request>,           // what the server has heard from this client
    told: seq<Message>,            // what it has sent to this client, in order
    seat: Option<string>,
    said: seq<(string, string)>,   // what this user has broadcast, and in which room
    inbox: seq<Message>,
    lost: seq<Message>)            // taken from the inbox for a send that failed

  type World = map<Uid, Person>

  const EMPTY: World := map[]

  function Newcomer(name: string, role: Role): Person {
    Person(name, role, [], [], None, [], [], [])
  }

  datatype Event =
    | Nothing
    | Come(u: Uid, name: string, role: Role)
    | Ask(u: Uid, r: Request, now: seq<Message>)   // heard, and what is answered at once
    | Answer(u: Uid, m: Message)
    | Sit(u: Uid, room: string)
    | Rise(u: Uid)
    | Broadcast(u: Uid, text: string)
    | Show(u: Uid)
    | Lose(u: Uid)

  // ---- What may happen to one person

  /** Everything a sender will have been told once its requests are dealt with. */
  function Script(p: Person): seq<Message> {
    [WelcomeReply(p.name)] + Fold(p.name, p.asked).replies
  }

  /** A sender asks when all it has asked is answered, and is answered by the rules of
      its session; a receiver asks once, for a room. */
  predicate MayAsk(p: Person, r: Request, now: seq<Message>) {
    if p.role.Sender? then
      && p.told == Script(p) && !Fold(p.name, p.asked).over
      && p.told + now <= Script(p.(asked := p.asked + [r]))
    else
      && p.asked == [] && p.told == [WelcomeReply(p.name)]
      && now == if ValidJoin(r) then [] else [RefusalOf(r)]
  }

  /** A receiver that has been told it is in its room, and has lost nothing yet. */
  predicate Listening(p: Person) {
    p.role.Receiver? && |p.told| >= 2 && |p.asked| == 1 && ValidJoin(p.asked[0]) && p.lost == []
  }

  /** Logins are answered first. A sender is answered by the rules of its session; a
      receiver is told that it has joined when it sits in the room it asked for, and
      from then on is told, now and then, that there was nothing to deliver. */
  predicate MayAnswer(p: Person, m: Message) {
    if p.told == [] then p.asked == [] && m == WelcomeReply(p.name)
    else if p.role.Sender? then p.told + [m] <= Script(p)
    else if |p.told| == 1 then
      && m == JOINED_ROOM_REPLY && |p.asked| == 1 && ValidJoin(p.asked[0])
      && p.seat == Some(p.asked[0].m.data)
    else Listening(p) && m == EMPTY_REPLY
  }

  /** One sits down in the room of the join one asked for last. */
  predicate MaySit(p: Person, room: string) {
    && p.seat == None && p.asked != []
    && ValidJoin(p.asked[|p.asked| - 1]) && p.asked[|p.asked| - 1].m.data == room
  }

  /** A sender gets up when it has asked to, to join elsewhere, or to end; a receiver
      when a message has been lost on it. */
  predicate MayRise(p: Person) {
    && p.seat.Some?
    && if p.role.Sender? then
         && p.asked != []
         && var r := p.asked[|p.asked| - 1];
         ValidJoin(r) || IsLeave(r) || Ends(r)
       else p.lost != []
  }

  /** A sender broadcasts in its room what it asked to say next. */
  predicate MaySpeak(p: Person, text: string) {
    p.role.Sender? && p.seat.Some? && p.said + [(p.seat.value, text)] <= Asks(p.name, p.asked)
  }

  predicate MayTake(p: Person) {
    Listening(p) && p.inbox != []
  }

  predicate May(p: Person, e: Event) {
    match e
    case Nothing => true
    case Come(_, _, _) => false
    case Ask(_, r, now) => MayAsk(p, r, now)
    case Answer(_, m) => MayAnswer(p, m)
    case Sit(_, room) => MaySit(p, room)
    case Rise(_) => MayRise(p)
    case Broadcast(_, text) => MaySpeak(p, text)
    case Show(_) => MayTake(p)
    case Lose(_) => MayTake(p)
  }

  /** What the event changes about the one who acts. */
  function Acted(p: Person, e: Event): Person
    requires May(p, e)
  {
    match e
    case Nothing => p
    case Ask(_, r, now) => p.(asked := p.asked + [r], told := p.told + now)
    case Answer(_, m) => p.(told := p.told + [m])
    case Sit(_, room) => p.(seat := Some(room))
    case Rise(_) => p.(seat := None)
    case Broadcast(_, text) => p.(said := p.said + [(p.seat.value, text)])
    case Show(_) => p.(told := p.told + [p.inbox[0]], inbox := p.inbox[1..])
    case Lose(_) => p.(lost := p.lost + [p.inbox[0]], inbox := p.inbox[1..])
  }

  // ---- What may happen

  predicate Possible(w: World, e: Event) {
    match e
    case Nothing => true
    case Come(u, _, _) => u !in w
    case _ => e.u in w && May(w[e.u], e)
  }

  /** What `listener` hears of a broadcast by `speaker`: nothing from another room,
      nothing from someone with its own name. */
  function Hears(speaker: Person, text: string, listener: Person): seq<Message> {
    if speaker.seat.Some? && listener.seat == speaker.seat
    then Heard(listener.name, speaker.seat.value, speaker.name, text) else []
  }

  function Happen(w: World, e: Event): World
    requires Possible(w, e)
  {
    match e
    case Nothing => w
    case Come(u, name, role) => w[u := Newcomer(name, role)]
    case Broadcast(u, text) =>
      map x | x in w ::
        (if x == u then Acted(w[u], e) else w[x]).(inbox := w[x].inbox + Hears(w[u], text, w[x]))
    case _ => w[e.u := Acted(w[e.u], e)]
  }

  ghost predicate History(worlds: seq<World>, events: seq<Event>) {
    && |worlds| == |events| + 1
    && worlds[0] == EMPTY
    && forall i :: 0 <= i < |events| ==> Possible(worlds[i], events[i]) && worlds[i + 1] == Happen(worlds[i], events[i])
  }
}
