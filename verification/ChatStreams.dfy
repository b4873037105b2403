/** What every client has been sent, as one stream, and what every sender has had
    said, as one list: both in order and with nothing lost or repeated. */
module ChatStreams {
  import opened Basics
  import opened Messages
  import opened Session
  import opened Chat
  import opened ChatSteps
  import opened ChatInvariants
  import opened ChatMessages
  import opened ChatLedger
  import opened ChatSessions

  // ---- Out: the stream to one client

  /** The deliveries among the messages. */
  function Deliveries(ms: seq<Message>): seq<Message> {
    if ms == [] then []
    else Deliveries(ms[..|ms| - 1]) + (if ms[|ms| - 1].tag == TAG_DELIVERY then [ms[|ms| - 1]] else [])
  }

  lemma DeliveriesSnoc(ms: seq<Message>, m: Message)
    ensures Deliveries(ms + [m]) == Deliveries(ms) + (if m.tag == TAG_DELIVERY then [m] else [])
  {
    assert (ms + [m])[..|ms|] == ms;
  }

  lemma {:induction false} DeliveriesConcat(a: seq<Message>, b: seq<Message>)
    ensures Deliveries(a + b) == Deliveries(a) + Deliveries(b)
  {
    if b == [] {
      assert a + b == a;
    } else {
      var n := |b| - 1;
      DeliveriesConcat(a, b[..n]);
      LastApart(b);
      Associates(a, b[..n], [b[n]]);
      DeliveriesSnoc(a + b[..n], b[n]);
      DeliveriesSnoc(b[..n], b[n]);
      Associates(Deliveries(a), Deliveries(b[..n]), if b[n].tag == TAG_DELIVERY then [b[n]] else []);
    }
  }

  lemma {:induction false} NoMoreDeliveries(ms: seq<Message>, longer: seq<Message>)
    requires ms <= longer && forall i :: |ms| <= i < |longer| ==> longer[i].tag != TAG_DELIVERY
    ensures Deliveries(longer) == Deliveries(ms)
    decreases |longer|
  {
    if |longer| > |ms| {
      NoMoreDeliveries(ms, longer[..|longer| - 1]);
    } else {
      assert longer == ms;
    }
  }

  /** The complaints about an empty round among the messages. */
  function Complaints(ms: seq<Message>): nat {
    if ms == [] then 0 else Complaints(ms[..|ms| - 1]) + One(ms[|ms| - 1] == EMPTY_REPLY)
  }

  /** After the two answers everything is a delivery or a complaint. */
  lemma {:induction false} ServedAddsUp(name: string, sent: seq<Message>)
    requires Served(name, sent)
    ensures Complaints(sent) + |Deliveries(sent)| == |sent| - 2
  {
    var before := sent[..|sent| - 1];
    if |sent| == 2 {
      assert before[..0] == [] && before[0] == WelcomeReply(name);
      assert Complaints(before) == Complaints(before[..0]) && Deliveries(before) == Deliveries(before[..0]) + [];
      assert Complaints([]) == 0 && Deliveries([]) == [];
    } else {
      ServedAddsUp(name, before);
    }
  }

  /** The deliveries in a client's stream are the Messages that its thread has taken
      from the queue and sent. */
  predicate StreamAt(s: State, t: Tid) {
    t in s.threads ==>
      && (forall i :: 0 <= i < |s.threads[t].delivered| ==> s.threads[t].delivered[i] < |s.heap|)
      && Deliveries(s.threads[t].sent) == Texts(s, s.threads[t].delivered)
  }

  ghost predicate StreamsOk(s: State) {
    forall t: nat :: StreamAt(s, t)
  }

  lemma StreamOfOwnerKept(s: State, s': State, t: Tid)
    requires Step(s, s', t) && SentMoves(s, s', t) && StreamAt(s, t) && TagsOk(s) && t in s.threads
    ensures StreamAt(s', t)
  {
    var th, th' := s.threads[t], s'.threads[t];
    TextsStay(s, s', t, th.delivered);
    if th.pc.Delivering? && th'.pc.Waiting? {
      assert TagAt(s, th.pc.msg);
      DeliveriesSnoc(th.sent, s.heap[th.pc.msg].message);
      TextsAppend(s', th.delivered, th.pc.msg);
    } else {
      NoMoreDeliveries(th.sent, th'.sent);
    }
  }

  lemma StreamsKept(s: State, s': State, t: Tid)
    requires Step(s, s', t) && SentMoves(s, s', t) && StreamsOk(s) && TagsOk(s)
    ensures StreamsOk(s')
  {
    forall x: nat ensures StreamAt(s', x) {
      assert StreamAt(s, x);
      if x in s.threads {
        if x == t {
          StreamOfOwnerKept(s, s', t);
        } else {
          TextsStay(s, s', t, s.threads[x].delivered);
        }
      }
    }
  }

  // ---- In: what one sender has had said

  function NameAt(rooms: seq<Room>, r: Rid): string {
    if r < |rooms| then rooms[r].name else ""
  }

  /** The log entries of one author: room name and text. */
  function Spoken(rooms: seq<Room>, log: seq<Entry>, t: Tid): seq<(string, string)> {
    if log == [] then []
    else Spoken(rooms, log[..|log| - 1], t) + SpokenBy(rooms, log[|log| - 1], t)
  }

  function SpokenBy(rooms: seq<Room>, e: Entry, t: Tid): seq<(string, string)> {
    if e.author == t then [(NameAt(rooms, e.room), e.text)] else []
  }

  lemma SpokenSnoc(rooms: seq<Room>, log: seq<Entry>, e: Entry, t: Tid)
    ensures Spoken(rooms, log + [e], t) == Spoken(rooms, log, t) + SpokenBy(rooms, e, t)
  {
    assert (log + [e])[..|log|] == log;
  }

  lemma {:induction false} SpokenStays(rooms: seq<Room>, rooms': seq<Room>, log: seq<Entry>, t: Tid)
    requires forall e :: 0 <= e < |log| ==> NameAt(rooms', log[e].room) == NameAt(rooms, log[e].room)
    ensures Spoken(rooms', log, t) == Spoken(rooms, log, t)
  {
    if log != [] {
      SpokenStays(rooms, rooms', log[..|log| - 1], t);
    }
  }

  lemma {:induction false} SilentStranger(rooms: seq<Room>, log: seq<Entry>, t: Tid)
    requires forall e :: 0 <= e < |log| ==> log[e].author != t
    ensures Spoken(rooms, log, t) == []
  {
    if log != [] {
      SilentStranger(rooms, log[..|log| - 1], t);
    }
  }

  /** What the thread is about to say. */
  function Pending(s: State, th: Thread): seq<(string, string)> {
    if th.pc.WantBroadcast? && InRoom(s, th) then [(RoomOf(s, th).name, th.pc.text)] else []
  }

  /** What a sender's thread has said and is about to say is what its client has
      asked for, in order, each request once. A receiver says nothing. */
  predicate SpokenAt(s: State, t: Tid) {
    t in s.threads ==>
      Spoken(s.rooms, s.log, t) + Pending(s, s.threads[t])
      == if s.threads[t].role.Sender? then Asks(s.threads[t].username, s.threads[t].requests) else []
  }

  ghost predicate SpeechOk(s: State) {
    forall t: nat :: SpokenAt(s, t)
  }

  /** A request makes its ask pending; getting the room moves it into the log. */
  predicate SpeechMoves(s: State, s': State, a: Action) {
    a.t in s.threads && a.t in s'.threads ==>
      var th, th' := s.threads[a.t], s'.threads[a.t];
      if a.Hear? && th.role.Sender? then
        && s'.log == s.log && th'.requests == th.requests + [a.r]
        && Pending(s, th) == [] && th.pc.Idle?
        && Pending(s', th')
           == if a.r.Line? && a.r.m.tag == TAG_SENDALL && InRoom(s, th) then [(RoomOf(s, th).name, a.r.m.data)] else []
      else if |s'.log| > |s.log| then
        && th'.requests == th.requests && Pending(s', th') == [] && th.role.Sender?
        && s'.log == s.log + [s'.log[|s.log|]] && s'.log[|s.log|].author == a.t
        && Pending(s, th) == [(NameAt(s'.rooms, s'.log[|s.log|].room), s'.log[|s.log|].text)]
      else
        && s'.log == s.log && Pending(s', th') == Pending(s, th)
        && (th.role.Sender? ==> th'.requests == th.requests)
  }

  lemma SpeechStep(s: State, a: Action)
    requires Enabled(s, a) && RoleAt(s, a.t)
    requires a.t in s.threads ==> ThreadRefs(s, s.threads[a.t])
    ensures SpeechMoves(s, Next(s, a), a)
  {
  }

  /** What the thread hears between two turns asks to speak in the room it is in. */
  lemma AskIsPending(s: State, th: Thread, r: Request)
    requires th.pc.Idle? && View(s, th) == Welcomed(th.username, Fold(th.username, th.requests))
    ensures LastAsk(th.username, th.requests, r)
            == if r.Line? && r.m.tag == TAG_SENDALL && InRoom(s, th) then [(RoomOf(s, th).name, r.m.data)] else []
  {
  }

  /** The stepping thread's own list. */
  lemma SpokenByOwnerKept(s: State, s': State, a: Action)
    requires ThreadsMove(s, s', a.t) && SpeechMoves(s, s', a) && a.t in s.threads
    requires SpokenAt(s, a.t) && Spoken(s'.rooms, s.log, a.t) == Spoken(s.rooms, s.log, a.t)
    requires a.Hear? && s.threads[a.t].role.Sender? ==>
               var th := s.threads[a.t];
               LastAsk(th.username, th.requests, a.r) == Pending(s', s'.threads[a.t])
    ensures SpokenAt(s', a.t)
  {
    var th, th' := s.threads[a.t], s'.threads[a.t];
    var said := Spoken(s.rooms, s.log, a.t);
    if a.Hear? && th.role.Sender? {
      AsksSnoc(th.username, th.requests, a.r);
      assert said + [] == said;
    } else if |s'.log| > |s.log| {
      SpokenSnoc(s'.rooms, s.log, s'.log[|s.log|], a.t);
      assert (said + Pending(s, th)) + [] == said + Pending(s, th);
    }
  }

  /** The log is as it was, or has one more entry, by thread t. */
  predicate AtMostOneMoreBy(log: seq<Entry>, log': seq<Entry>, t: Tid) {
    log' == log || (log' != [] && log' == log + [log'[|log'| - 1]] && log'[|log'| - 1].author == t)
  }

  lemma LogMovesByOne(s: State, s': State, t: Tid)
    requires LogMoves(s, s', t)
    ensures AtMostOneMoreBy(s.log, s'.log, t)
  {
  }

  lemma SpokenByOtherKept(s: State, s': State, t: Tid, x: Tid)
    requires AtMostOneMoreBy(s.log, s'.log, t) && SpokenAt(s, x) && x != t
    requires x in s.threads && x in s'.threads && s'.threads[x] == s.threads[x]
    requires Pending(s', s'.threads[x]) == Pending(s, s.threads[x])
    requires Spoken(s'.rooms, s.log, x) == Spoken(s.rooms, s.log, x)
    ensures SpokenAt(s', x)
  {
    if s'.log != s.log {
      SpokenSnoc(s'.rooms, s.log, s'.log[|s'.log| - 1], x);
      assert Spoken(s'.rooms, s.log, x) + [] == Spoken(s'.rooms, s.log, x);
    }
  }

  lemma PendingStays(s: State, s': State, t: Tid, x: Tid)
    requires Step(s, s', t) && x in s.threads && x != t && ThreadRefs(s, s.threads[x])
    ensures x in s'.threads && s'.threads[x] == s.threads[x]
    ensures Pending(s', s'.threads[x]) == Pending(s, s.threads[x])
  {
    RoomNamesStay(s, s', t);
  }

  lemma NewcomerSilent(s: State, s': State, t: Tid)
    requires Step(s, s', t) && LogOk(s) && t !in s.threads
    ensures SpokenAt(s', t)
  {
    forall e | 0 <= e < |s.log| ensures s.log[e].author != t {
      assert EntryAt(s, e);
    }
    SilentStranger(s'.rooms, s.log, t);
  }

  /** What anyone has said stays said. */
  lemma SpokenKept(s: State, s': State, t: Tid, x: Tid)
    requires Step(s, s', t) && LogOk(s)
    ensures Spoken(s'.rooms, s.log, x) == Spoken(s.rooms, s.log, x)
  {
    RoomNamesStay(s, s', t);
    forall e | 0 <= e < |s.log| ensures NameAt(s'.rooms, s.log[e].room) == NameAt(s.rooms, s.log[e].room) {
      assert EntryAt(s, e);
    }
    SpokenStays(s.rooms, s'.rooms, s.log, x);
  }

  lemma SpeechOfOwner(s: State, s': State, a: Action)
    requires ThreadsMove(s, s', a.t) && SpeechMoves(s, s', a) && a.t in s.threads
    requires SpokenAt(s, a.t) && SessionAt(s, a.t) && Spoken(s'.rooms, s.log, a.t) == Spoken(s.rooms, s.log, a.t)
    ensures SpokenAt(s', a.t)
  {
    if a.Hear? && s.threads[a.t].role.Sender? {
      AskIsPending(s, s.threads[a.t], a.r);
    }
    SpokenByOwnerKept(s, s', a);
  }

  lemma SpeechOfOther(s: State, s': State, t: Tid, x: Tid)
    requires Step(s, s', t) && SpokenAt(s, x) && x in s.threads && x != t && ThreadRefs(s, s.threads[x])
    requires Spoken(s'.rooms, s.log, x) == Spoken(s.rooms, s.log, x)
    ensures SpokenAt(s', x)
  {
    PendingStays(s, s', t, x);
    LogMovesByOne(s, s', t);
    SpokenByOtherKept(s, s', t, x);
  }

  lemma SpeechKept(s: State, s': State, a: Action)
    requires Step(s, s', a.t) && SpeechMoves(s, s', a) && SpeechOk(s)
    requires RefsOk(s) && LogOk(s) && SessionAt(s, a.t)
    ensures SpeechOk(s')
  {
    forall x: nat ensures SpokenAt(s', x) {
      assert SpokenAt(s, x);
      SpokenKept(s, s', a.t, x);
      if x !in s.threads {
        if x == a.t {
          NewcomerSilent(s, s', x);
        }
      } else if x == a.t {
        SpeechOfOwner(s, s', a);
      } else {
        SpeechOfOther(s, s', a.t, x);
      }
    }
  }
}
