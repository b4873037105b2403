/** Where the messages are: every Message allocated by a broadcast is at all
    times in one place, and every queue's past adds up. */
module ChatMessages {
  import opened Basics
  import opened Messages
  import opened Chat
  import opened ChatSteps
  import opened ChatInvariants

  // ---- Ownership

  predicate InDeque(s: State, u: Tid, a: Addr) {
    u in s.queues && a in s.queues[u].messages
  }

  /** A hand never holds a deleted or unallocated Message. */
  predicate HandsAt(s: State, t: Tid) {
    && (HandOut(PcAt(s, t)).Some? ==>
          HandOut(PcAt(s, t)).value < |s.heap| && s.heap[HandOut(PcAt(s, t)).value].loc == Held(t))
    && (HandIn(PcAt(s, t)).Some? ==>
          HandIn(PcAt(s, t)).value < |s.heap| && s.heap[HandIn(PcAt(s, t)).value].loc == Taken(t))
  }

  /** A Message that is not deleted is where it is marked to be. */
  predicate CellAt(s: State, a: Addr) {
    a < |s.heap| ==>
      match s.heap[a].loc
      case Held(t) => HandOut(PcAt(s, t)) == Some(a)
      case Taken(t) => HandIn(PcAt(s, t)) == Some(a)
      case Queued(u) => InDeque(s, u, a)
      case Freed => true
  }

  predicate Distinct(ms: seq<Addr>) {
    forall i, j :: 0 <= i < j < |ms| ==> ms[i] != ms[j]
  }

  /** The deques hold live messages, each at one position of one deque. */
  predicate DequeAt(s: State, u: Tid) {
    u in s.queues ==>
      && Distinct(s.queues[u].messages)
      && forall i :: 0 <= i < |s.queues[u].messages| ==>
           && s.queues[u].messages[i] < |s.heap|
           && s.heap[s.queues[u].messages[i]].loc == Queued(u)
  }

  ghost predicate OwnershipOk(s: State) {
    && (forall t: nat :: HandsAt(s, t))
    && (forall a: nat :: CellAt(s, a))
    && (forall u: nat :: DequeAt(s, u))
  }

  lemma DequeKept(s: State, s': State, t: Tid, u: Tid)
    requires HandsAt(s, t) && DequeAt(s, u) && (u != t ==> DequeAt(s, t)) && Step(s, s', t)
    ensures DequeAt(s', u)
  {
    assert DequeMoves(s, s', t, u);
    assert DequeMoves(s, s', t, t);
  }

  lemma HandsKept(s: State, s': State, t: Tid, x: Tid)
    requires HandsAt(s, t) && HandsAt(s, x) && DequeAt(s, t) && Step(s, s', t)
    ensures HandsAt(s', x)
  {
    assert x != t ==> PcAt(s', x) == PcAt(s, x);
    assert DequeMoves(s, s', t, t);
  }

  lemma CellKept(s: State, s': State, t: Tid, a: Addr)
    requires HandsAt(s, t) && CellAt(s, a) && DequeAt(s, t) && Step(s, s', t)
    ensures CellAt(s', a)
  {
    assert DequeMoves(s, s', t, t);
    if a < |s.heap| {
      var loc := s.heap[a].loc;
      if loc.Queued? {
        assert DequeMoves(s, s', t, loc.u);
      }
    }
    if Pushes(s, s', t) {
      assert DequeMoves(s, s', t, PcAt(s, t).to);
    }
  }

  lemma OwnershipKept(s: State, s': State, t: Tid)
    requires OwnershipOk(s) && Step(s, s', t)
    ensures OwnershipOk(s')
  {
    forall x: nat ensures HandsAt(s', x) {
      HandsKept(s, s', t, x);
    }
    forall a: nat ensures CellAt(s', a) {
      CellKept(s, s', t, a);
    }
    forall u: nat ensures DequeAt(s', u) {
      DequeKept(s, s', t, u);
    }
  }

  // ---- Contents

  function TextOf(s: State, a: Addr): Message {
    if a < |s.heap| then s.heap[a].message else Message("", "")
  }

  function Texts(s: State, ms: seq<Addr>): seq<Message> {
    seq(|ms|, i requires 0 <= i < |ms| => TextOf(s, ms[i]))
  }

  lemma TextsAppend(s: State, ms: seq<Addr>, a: Addr)
    ensures Texts(s, ms + [a]) == Texts(s, ms) + [TextOf(s, a)]
  {
  }

  lemma TextsTail(s: State, ms: seq<Addr>)
    requires ms != []
    ensures Texts(s, ms) != [] && Texts(s, ms[1..]) == Texts(s, ms)[1..]
  {
  }

  /** A message never changes once it is allocated. */
  lemma TextsStay(s: State, s': State, t: Tid, ms: seq<Addr>)
    requires Step(s, s', t) && forall i :: 0 <= i < |ms| ==> ms[i] < |s.heap|
    ensures Texts(s', ms) == Texts(s, ms)
  {
    forall i | 0 <= i < |ms| ensures TextOf(s', ms[i]) == TextOf(s, ms[i]) {
    }
  }

  /** Every Message of a broadcast is a delivery. */
  predicate TagAt(s: State, a: Addr) {
    a < |s.heap| ==> s.heap[a].message.tag == TAG_DELIVERY
  }

  ghost predicate TagsOk(s: State) {
    forall a: nat :: TagAt(s, a)
  }

  lemma TagsKept(s: State, s': State, t: Tid)
    requires TagsOk(s) && Step(s, s', t)
    ensures TagsOk(s')
  {
    forall a: nat ensures TagAt(s', a) {
      assert TagAt(s, a);
    }
  }

  // ---- Flow

  function AsSeq<T>(o: Option<T>): seq<T> {
    if o.Some? then [o.value] else []
  }

  /** Everything ever enqueued for a user, in order: what was sent to the client,
      at most one message lost in a failed send, at most one in the thread's
      hand, and what is still in the deque. */
  predicate FlowAt(s: State, u: Tid) {
    u in s.queues && u in s.threads ==>
      && s.queues[u].pushed == s.threads[u].delivered + s.threads[u].dropped
                               + AsSeq(HandIn(s.threads[u].pc)) + s.queues[u].messages
      && |s.queues[u].got| == |s.queues[u].pushed|
      && |s.threads[u].dropped| <= 1
      && (s.threads[u].dropped != [] ==> Ended(s.threads[u].pc))
  }

  ghost predicate FlowOk(s: State) {
    forall u: nat :: FlowAt(s, u)
  }

  lemma FlowOfOwnerKept(s: State, s': State, t: Tid)
    requires ThreadsMove(s, s', t) && RecordMoves(s, s', t) && DequeMoves(s, s', t, t) && HeapMoves(s, s', t)
    requires s.queues.Keys == s.threads.Keys && FlowAt(s, t)
    ensures FlowAt(s', t)
  {
    if t in s.threads && Pushes(s, s', t) && PcAt(s, t).to == t {
      assert HandIn(PcAt(s, t)) == HandIn(PcAt(s', t)) == None;
    }
  }

  lemma FlowOfOtherKept(s: State, s': State, t: Tid, u: Tid)
    requires ThreadsMove(s, s', t) && DequeMoves(s, s', t, u)
    requires s.queues.Keys == s.threads.Keys && FlowAt(s, u) && u != t
    ensures FlowAt(s', u)
  {
  }

  lemma FlowKept(s: State, s': State, t: Tid)
    requires RefsOk(s) && FlowOk(s) && Step(s, s', t)
    ensures FlowOk(s')
  {
    forall u: nat ensures FlowAt(s', u) {
      if u == t {
        FlowOfOwnerKept(s, s', t);
      } else {
        FlowOfOtherKept(s, s', t, u);
      }
    }
  }
}
