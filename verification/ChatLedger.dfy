/** The broadcast log: what each queue has been given, told from the log alone. */
module ChatLedger {
  import opened Basics
  import ClientUtil
  import opened Messages
  import Connections
  import Session
  import opened Chat
  import opened ChatSteps
  import opened ChatInvariants
  import opened ChatMessages

  // ---- Broadcasts in progress

  predicate HasTarget(pc: PC) {
    pc.WantPush? || pc.Pushing?
  }

  /** Busy with one member. */
  predicate Serving(pc: PC) {
    pc.WantPush? || pc.Pushing? || pc.Pushed? || pc.Posting?
  }

  /** A thread inside broadcast_message works from the log entry it made, and
      the members it has not served are members still. */
  predicate JobAt(s: State, t: Tid) {
    t in s.threads && Broadcasting(s.threads[t].pc) ==>
      var th := s.threads[t];
      var job := th.pc.job;
      && InRoom(s, th)
      && job.entry < |s.log|
      && s.log[job.entry] == Entry(th.room.value, t, th.username, job.text, RoomOf(s, th).members)
      && job.todo <= RoomOf(s, th).members
      && (Serving(th.pc) ==>
            && th.pc.to in RoomOf(s, th).members && th.pc.to !in job.todo
            && th.pc.to in s.threads && s.threads[th.pc.to].username != th.username)
  }

  /** A broadcast that is about to be acknowledged was made by this thread. */
  predicate AckAt(s: State, t: Tid) {
    t in s.threads && s.threads[t].pc.AckSend? ==>
      s.threads[t].pc.entry < |s.log| && s.log[s.threads[t].pc.entry].author == t
  }

  ghost predicate JobsOk(s: State) {
    forall t: nat :: JobAt(s, t) && AckAt(s, t)
  }

  lemma JobStepOfServer(s: State, a: Action)
    requires Enabled(s, a) && JobAt(s, a.t) && (a.t in s.threads ==> ThreadRefs(s, s.threads[a.t]))
    requires OfServer(a)
    ensures JobAt(Next(s, a), a.t)
  {
  }

  lemma JobStepOfRoom(s: State, a: Action)
    requires Enabled(s, a) && JobAt(s, a.t) && (a.t in s.threads ==> ThreadRefs(s, s.threads[a.t]))
    requires OfRoom(a)
    ensures JobAt(Next(s, a), a.t)
  {
  }

  lemma JobStepOfQueue(s: State, a: Action)
    requires Enabled(s, a) && JobAt(s, a.t) && (a.t in s.threads ==> ThreadRefs(s, s.threads[a.t]))
    requires OfQueue(a)
    ensures JobAt(Next(s, a), a.t)
  {
  }

  lemma JobStepOfTalk(s: State, a: Action)
    requires Enabled(s, a) && JobAt(s, a.t) && (a.t in s.threads ==> ThreadRefs(s, s.threads[a.t]))
    requires OfTalk(a)
    ensures JobAt(Next(s, a), a.t)
  {
  }

  lemma JobStep(s: State, a: Action)
    requires Enabled(s, a) && JobAt(s, a.t) && (a.t in s.threads ==> ThreadRefs(s, s.threads[a.t]))
    ensures JobAt(Next(s, a), a.t)
  {
    if OfServer(a) {
      JobStepOfServer(s, a);
    } else if OfRoom(a) {
      JobStepOfRoom(s, a);
    } else if OfQueue(a) {
      JobStepOfQueue(s, a);
    } else {
      JobStepOfTalk(s, a);
    }
  }

  lemma AckStep(s: State, a: Action)
    requires Enabled(s, a) && JobAt(s, a.t)
    ensures AckAt(Next(s, a), a.t)
  {
  }

  lemma JobFrame(s: State, s': State, t: Tid, x: Tid)
    requires Step(s, s', t) && RefsOk(s) && RoomLocksOk(s) && JobAt(s, x) && x != t
    ensures JobAt(s', x)
  {
    if x in s.threads && Broadcasting(s.threads[x].pc) {
      var r := s.threads[x].room.value;
      assert InRoomLock(s, x, r);
      assert RoomSetMoves(s, s', t, r) && RoomLockMoves(s, s', t, r);
    }
  }

  lemma JobsKept(s: State, s': State, t: Tid)
    requires Step(s, s', t) && RefsOk(s) && RoomLocksOk(s) && JobsOk(s) && JobAt(s', t) && AckAt(s', t)
    ensures JobsOk(s')
  {
    forall x: nat ensures JobAt(s', x) && AckAt(s', x) {
      if x != t {
        assert JobAt(s, x) && AckAt(s, x);
        JobFrame(s, s', t, x);
      }
    }
  }

  // ---- The log

  predicate CleanText(text: string) {
    ClientUtil.RTrim(text) == text && Connections.Clean(text)
  }

  /** The request that asks for a broadcast of `text`. */
  function Asked(text: string): Session.Request {
    Session.Line(Message(TAG_SENDALL, text))
  }

  /** Log entries point to rooms and users that exist, and say what their sender
      has asked to say, as Connection::receive has returned it. */
  ghost predicate EntryAt(s: State, e: nat) {
    e < |s.log| ==>
      && s.log[e].room < |s.rooms| && s.log[e].members <= s.threads.Keys && s.log[e].author in s.threads
      && CleanText(s.log[e].sender) && CleanText(s.log[e].text)
      && s.log[e].sender == s.threads[s.log[e].author].username
      && Asked(s.log[e].text) in s.threads[s.log[e].author].requests
  }

  predicate TextAt(s: State, t: Tid) {
    t in s.threads ==>
      && CleanText(s.threads[t].username)
      && (s.threads[t].pc.WantBroadcast? ==>
            CleanText(s.threads[t].pc.text) && Asked(s.threads[t].pc.text) in s.threads[t].requests)
  }

  ghost predicate LogOk(s: State) {
    && (forall t: nat :: TextAt(s, t))
    && (forall e: nat :: EntryAt(s, e))
  }

  lemma TextStep(s: State, a: Action)
    requires Enabled(s, a) && TextAt(s, a.t)
    ensures TextAt(Next(s, a), a.t)
  {
  }

  lemma EntryKept(s: State, s': State, t: Tid, e: nat)
    requires Step(s, s', t) && EntryAt(s, e) && TextAt(s, t)
    requires t in s.threads ==> ThreadRefs(s, s.threads[t])
    requires forall r :: 0 <= r < |s.rooms| ==> s.rooms[r].members <= s.threads.Keys
    ensures EntryAt(s', e)
  {
    RoomNamesStay(s, s', t);
  }

  lemma LogKept(s: State, s': State, t: Tid)
    requires Step(s, s', t) && RefsOk(s) && LogOk(s) && TextAt(s', t)
    ensures LogOk(s')
  {
    RoomNamesStay(s, s', t);
    forall x: nat ensures TextAt(s', x) {
      assert TextAt(s, x);
    }
    forall e: nat ensures EntryAt(s', e) {
      assert EntryAt(s, e) && TextAt(s, t);
      EntryKept(s, s', t, e);
    }
  }

  // ---- Contents

  /** The message that log entry e sends. */
  function Sent(s: State, e: nat): Message
    requires e < |s.log| && s.log[e].room < |s.rooms|
  {
    Delivery(s.rooms[s.log[e].room].name, s.log[e].sender, s.log[e].text)
  }

  predicate CarriesAt(s: State, a: Addr, e: nat) {
    a < |s.heap| && e < |s.log| && s.log[e].room < |s.rooms| && s.heap[a].message == Sent(s, e)
  }

  predicate HandContent(s: State, t: Tid) {
    HasTarget(PcAt(s, t)) ==> CarriesAt(s, PcAt(s, t).msg, PcAt(s, t).job.entry)
  }

  predicate QueueContent(s: State, u: Tid, k: nat) {
    u in s.queues && k < |s.queues[u].pushed| && k < |s.queues[u].got| ==>
      CarriesAt(s, s.queues[u].pushed[k], s.queues[u].got[k])
  }

  /** What was enqueued k-th for a user is the message of the log entry on record. */
  ghost predicate ContentOk(s: State) {
    && (forall t: nat :: HandContent(s, t))
    && (forall u: nat, k: nat :: QueueContent(s, u, k))
  }

  lemma HandContentStep(s: State, a: Action)
    requires Enabled(s, a) && HandContent(s, a.t) && JobAt(s, a.t)
    ensures HandContent(Next(s, a), a.t)
  {
  }

  lemma CarriesKept(s: State, s': State, t: Tid, a: Addr, e: nat)
    requires Step(s, s', t) && CarriesAt(s, a, e)
    ensures CarriesAt(s', a, e)
  {
    RoomNamesStay(s, s', t);
  }

  lemma ContentKept(s: State, s': State, t: Tid)
    requires Step(s, s', t) && RefsOk(s) && FlowOk(s) && ContentOk(s) && HandContent(s', t)
    ensures ContentOk(s')
  {
    forall x: nat ensures HandContent(s', x) {
      assert HandContent(s, x);
      if x != t && HasTarget(PcAt(s, x)) {
        CarriesKept(s, s', t, PcAt(s, x).msg, PcAt(s, x).job.entry);
      }
    }
    forall u: nat, k: nat ensures QueueContent(s', u, k) {
      QueueContentKept(s, s', t, u, k);
    }
  }

  lemma QueueContentKept(s: State, s': State, t: Tid, u: Tid, k: nat)
    requires Step(s, s', t) && RefsOk(s) && FlowAt(s, u) && QueueContent(s, u, k) && HandContent(s, t)
    ensures QueueContent(s', u, k)
  {
    assert DequeMoves(s, s', t, u);
    if u in s.queues && k < |s'.queues[u].pushed| && k < |s'.queues[u].got| {
      CarriesKept(s, s', t, s'.queues[u].pushed[k], s'.queues[u].got[k]);
    }
  }

  // ---- The ledger

  predicate Eligible(e: Entry, u: Tid, name: string) {
    u in e.members && e.sender != name
  }

  /** The positions of the broadcasts that user u, called `name`, must get: those
      of which it was a member when they got their room, and not its own by name. */
  function Filter(log: seq<Entry>, u: Tid, name: string): seq<nat> {
    if log == [] then []
    else Filter(log[..|log| - 1], u, name)
         + (if Eligible(log[|log| - 1], u, name) then [|log| - 1] else [])
  }

  lemma {:induction false} FilterIncreases(log: seq<Entry>, u: Tid, name: string)
    ensures forall i :: 0 <= i < |Filter(log, u, name)| ==> Filter(log, u, name)[i] < |log|
    ensures forall i, j :: 0 <= i < j < |Filter(log, u, name)| ==> Filter(log, u, name)[i] < Filter(log, u, name)[j]
  {
    if log != [] {
      var n := |log| - 1;
      var before, f := Filter(log[..n], u, name), Filter(log, u, name);
      FilterIncreases(log[..n], u, name);
      assert f == if Eligible(log[n], u, name) then before + [n] else before;
      assert forall i :: 0 <= i < |before| ==> f[i] == before[i] < n;
    }
  }

  lemma {:induction false} FilterIsExact(log: seq<Entry>, u: Tid, name: string, e: nat)
    requires e < |log|
    ensures e in Filter(log, u, name) <==> Eligible(log[e], u, name)
  {
    var n := |log| - 1;
    FilterIncreases(log[..n], u, name);
    var before, f := Filter(log[..n], u, name), Filter(log, u, name);
    assert f == if Eligible(log[n], u, name) then before + [n] else before;
    assert forall i :: 0 <= i < |before| ==> before[i] < n;
    if e < n {
      FilterIsExact(log[..n], u, name, e);
      assert e in f <==> e in before;
    }
  }

  /** The broadcast by t still has to reach u: u has not been visited, or its
      message has been allocated and not pushed. */
  predicate Unserved(s: State, t: Tid, u: Tid) {
    && t in s.threads && u in s.threads
    && Broadcasting(s.threads[t].pc)
    && (u in s.threads[t].pc.job.todo || (HasTarget(s.threads[t].pc) && s.threads[t].pc.to == u))
    && s.threads[u].username != s.threads[t].username
  }

  /** The one broadcast in progress that user u is still owed: only the holder of
      the lock of u's room can owe it one. */
  function Owed(s: State, u: Tid): Option<nat> {
    if u in s.threads && InRoom(s, s.threads[u]) && RoomOf(s, s.threads[u]).lock.Some? then
      var t := RoomOf(s, s.threads[u]).lock.value;
      if Unserved(s, t, u) && s.threads[t].room == s.threads[u].room then Some(s.threads[t].pc.job.entry) else None
    else None
  }

  /** Refinement to an atomic log: the messages a user has been given are those
      that the log assigns to it, in log order, short of the one broadcast in
      progress that has not reached it yet. */
  predicate LedgerAt(s: State, u: Tid) {
    u in s.threads && u in s.queues ==>
      s.queues[u].got + AsSeq(Owed(s, u)) == Filter(s.log, u, s.threads[u].username)
  }

  ghost predicate LedgerOk(s: State) {
    forall u: nat :: LedgerAt(s, u)
  }

  /** Whoever owes u anything is found by looking at the lock of u's room. */
  lemma DebtorHoldsLock(s: State, t: Tid, u: Tid)
    requires RefsOk(s) && RoomLocksOk(s) && MembersOk(s) && JobAt(s, t) && Unserved(s, t, u)
    ensures Owed(s, u) == Some(s.threads[t].pc.job.entry)
    ensures InRoomLock(s, t, s.threads[t].room.value) && s.threads[u].room == s.threads[t].room
  {
    var r := s.threads[t].room.value;
    assert InRoomLock(s, t, r);
    assert u in s.rooms[r].members;
    assert InSet(s, u, r);
  }

  /** What thread t owes to u changes only by serving u or by starting a broadcast. */
  predicate DebtMoves(s: State, s': State, t: Tid, u: Tid) {
    if Pushes(s, s', t) && PcAt(s, t).to == u then !Unserved(s', t, u) && Unserved(s, t, u)
    else if |s'.log| > |s.log| then
      !Unserved(s, t, u) && PcAt(s', t).Fanout? && PcAt(s', t).job.entry == |s.log|
      && (u in s.threads ==> (Unserved(s', t, u) <==> Eligible(s'.log[|s.log|], u, s.threads[u].username)))
    else
      (Unserved(s, t, u) <==> Unserved(s', t, u))
      && (Unserved(s, t, u) ==> PcAt(s', t).job.entry == PcAt(s, t).job.entry)
  }

  lemma DebtStepOfServer(s: State, a: Action, u: Tid)
    requires Enabled(s, a) && JobAt(s, a.t) && u in s.threads
    requires OfServer(a)
    ensures DebtMoves(s, Next(s, a), a.t, u)
  {
  }

  lemma DebtStepOfRoom(s: State, a: Action, u: Tid)
    requires Enabled(s, a) && JobAt(s, a.t) && u in s.threads
    requires OfRoom(a)
    ensures DebtMoves(s, Next(s, a), a.t, u)
  {
  }

  lemma DebtStepOfQueue(s: State, a: Action, u: Tid)
    requires Enabled(s, a) && JobAt(s, a.t) && u in s.threads
    requires OfQueue(a)
    ensures DebtMoves(s, Next(s, a), a.t, u)
  {
  }

  lemma DebtStepOfTalk(s: State, a: Action, u: Tid)
    requires Enabled(s, a) && JobAt(s, a.t) && u in s.threads
    requires OfTalk(a)
    ensures DebtMoves(s, Next(s, a), a.t, u)
  {
  }

  lemma DebtStep(s: State, a: Action, u: Tid)
    requires Enabled(s, a) && JobAt(s, a.t) && u in s.threads
    ensures DebtMoves(s, Next(s, a), a.t, u)
  {
    if OfServer(a) {
      DebtStepOfServer(s, a, u);
    } else if OfRoom(a) {
      DebtStepOfRoom(s, a, u);
    } else if OfQueue(a) {
      DebtStepOfQueue(s, a, u);
    } else {
      DebtStepOfTalk(s, a, u);
    }
  }

  /** Nobody owes u anything when the holder of its room's lock does not. */
  lemma OwedIsDebt(s: State, u: Tid)
    requires Owed(s, u).Some?
    ensures var t := RoomOf(s, s.threads[u]).lock.value;
            Unserved(s, t, u) && Owed(s, u) == Some(s.threads[t].pc.job.entry)
  {
  }

  ghost predicate Ready(s: State) {
    RefsOk(s) && RoomLocksOk(s) && MembersOk(s) && JobsOk(s)
  }

  /** Two broadcasts cannot owe the same user at the same time. */
  lemma OneDebtor(s: State, t: Tid, x: Tid, u: Tid)
    requires Ready(s) && Unserved(s, t, u) && Unserved(s, x, u)
    ensures t == x
  {
    DebtorHoldsLock(s, t, u);
    DebtorHoldsLock(s, x, u);
  }

  lemma NoDebtIfAll(s: State, u: Tid)
    requires forall x: nat :: !Unserved(s, x, u)
    ensures Owed(s, u) == None
  {
  }

  lemma OthersUnserved(s: State, s': State, t: Tid, u: Tid, x: Tid)
    requires Step(s, s', t) && u in s.threads && x != t
    ensures Unserved(s', x, u) <==> Unserved(s, x, u)
  {
  }

  /** What a user is owed changes when it is served and when a broadcast starts. */
  predicate OwedMoves(s: State, s': State, t: Tid, u: Tid) {
    if Pushes(s, s', t) && PcAt(s, t).to == u then
      Owed(s, u) == Some(PcAt(s, t).job.entry) && Owed(s', u) == None
    else if |s'.log| > |s.log| && u in s.threads && Eligible(s'.log[|s.log|], u, s.threads[u].username) then
      Owed(s, u) == None && Owed(s', u) == Some(|s.log|)
    else Owed(s', u) == Owed(s, u)
  }

  lemma OwedAfterPush(s: State, s': State, t: Tid, u: Tid)
    requires Ready(s) && Ready(s') && Step(s, s', t) && u in s.threads
    requires Pushes(s, s', t) && PcAt(s, t).to == u && DebtMoves(s, s', t, u)
    ensures OwedMoves(s, s', t, u)
  {
    DebtorHoldsLock(s, t, u);
    forall x: nat ensures !Unserved(s', x, u) {
      if x != t && Unserved(s', x, u) {
        OthersUnserved(s, s', t, u, x);
        OneDebtor(s, t, x, u);
      }
    }
    NoDebtIfAll(s', u);
  }

  lemma NoDebtBefore(s: State, s': State, t: Tid, u: Tid)
    requires Ready(s) && Ready(s') && Step(s, s', t) && u in s.threads
    requires Unserved(s', t, u) && !Unserved(s, t, u)
    ensures Owed(s, u) == None
  {
    forall x: nat ensures !Unserved(s, x, u) {
      if x != t && Unserved(s, x, u) {
        OthersUnserved(s, s', t, u, x);
        OneDebtor(s', t, x, u);
      }
    }
    NoDebtIfAll(s, u);
  }

  lemma SameDebts(s: State, s': State, t: Tid, u: Tid)
    requires Ready(s) && Ready(s') && Step(s, s', t) && u in s.threads
    requires Unserved(s, t, u) <==> Unserved(s', t, u)
    requires Unserved(s, t, u) ==> PcAt(s', t).job.entry == PcAt(s, t).job.entry
    ensures Owed(s', u) == Owed(s, u)
  {
    forall x: nat ensures Unserved(s', x, u) <==> Unserved(s, x, u) {
      if x != t {
        OthersUnserved(s, s', t, u, x);
      }
    }
    if x: nat :| Unserved(s, x, u) {
      DebtorHoldsLock(s, x, u);
      DebtorHoldsLock(s', x, u);
    } else {
      NoDebtIfAll(s, u);
      NoDebtIfAll(s', u);
    }
  }

  lemma OwedStep(s: State, s': State, t: Tid, u: Tid)
    requires Ready(s) && Ready(s') && Step(s, s', t) && u in s.threads && DebtMoves(s, s', t, u)
    ensures OwedMoves(s, s', t, u)
  {
    if Pushes(s, s', t) && PcAt(s, t).to == u {
      OwedAfterPush(s, s', t, u);
    } else if |s'.log| > |s.log| && Unserved(s', t, u) {
      DebtorHoldsLock(s', t, u);
      NoDebtBefore(s, s', t, u);
    } else {
      SameDebts(s, s', t, u);
    }
  }

  lemma LedgerAtKept(s: State, s': State, t: Tid, u: Tid)
    requires Step(s, s', t) && u in s.threads && LedgerAt(s, u) && OwedMoves(s, s', t, u)
    requires s.queues.Keys == s.threads.Keys
    ensures LedgerAt(s', u)
  {
    assert DequeMoves(s, s', t, u);
    if |s'.log| > |s.log| {
      assert s'.log[..|s.log|] == s.log;
    }
  }

  /** A user that has just arrived is owed nothing and has been given nothing. */
  lemma LedgerAtNew(s: State, s': State, t: Tid)
    requires RefsOk(s) && LogOk(s) && Step(s, s', t) && t !in s.threads
    ensures LedgerAt(s', t)
  {
    forall e | 0 <= e < |s.log| ensures s.log[e].members <= s.threads.Keys {
      assert EntryAt(s, e);
    }
    NothingForStrangers(s.log, t, s'.threads[t].username, s.threads.Keys);
  }

  lemma {:induction false} NothingForStrangers(log: seq<Entry>, u: Tid, name: string, known: set<Tid>)
    requires u !in known && forall e :: 0 <= e < |log| ==> log[e].members <= known
    ensures Filter(log, u, name) == []
  {
    if log != [] {
      NothingForStrangers(log[..|log| - 1], u, name, known);
    }
  }

  lemma LedgerKept(s: State, s': State, t: Tid)
    requires Ready(s) && Ready(s') && Step(s, s', t) && LogOk(s) && LedgerOk(s)
    requires forall u: nat :: u in s.threads ==> DebtMoves(s, s', t, u)
    ensures LedgerOk(s')
  {
    forall u: nat ensures LedgerAt(s', u) {
      if u in s.threads {
        assert LedgerAt(s, u);
        OwedStep(s, s', t, u);
        LedgerAtKept(s, s', t, u);
      } else if u == t {
        LedgerAtNew(s, s', t);
      }
    }
  }

  // ---- Posts

  /** Whoever serves u holds the lock of u's room. */
  lemma ServerHoldsLock(s: State, t: Tid)
    requires RefsOk(s) && MembersOk(s) && JobAt(s, t) && t in s.threads && Serving(s.threads[t].pc)
    ensures var u := s.threads[t].pc.to;
            u in s.threads && s.threads[u].room == s.threads[t].room && s.threads[t].room.Some?
            && InRoomLock(s, t, s.threads[t].room.value)
  {
    var u, r := s.threads[t].pc.to, s.threads[t].room.value;
    assert InSet(s, u, r);
  }

  lemma OneServer(s: State, t: Tid, x: Tid)
    requires Ready(s) && Serving(PcAt(s, t)) && Serving(PcAt(s, x)) && PcAt(s, t).to == PcAt(s, x).to
    ensures t == x
  {
    assert JobAt(s, t) && JobAt(s, x);
    ServerHoldsLock(s, t);
    ServerHoldsLock(s, x);
  }

  /** The message that has been pushed and not yet posted is the last one. */
  predicate LastAt(s: State, t: Tid) {
    (PcAt(s, t).Pushed? || PcAt(s, t).Posting?) && PcAt(s, t).to in s.queues ==>
      var got := s.queues[PcAt(s, t).to].got;
      got != [] && got[|got| - 1] == PcAt(s, t).job.entry
  }

  ghost predicate LastsOk(s: State) {
    forall t: nat :: LastAt(s, t)
  }

  lemma LastStep(s: State, a: Action)
    requires Enabled(s, a) && LastAt(s, a.t)
    ensures LastAt(Next(s, a), a.t)
  {
  }

  lemma LastsKept(s: State, s': State, t: Tid)
    requires Ready(s) && Step(s, s', t) && LastsOk(s) && LastAt(s', t)
    ensures LastsOk(s')
  {
    forall x: nat ensures LastAt(s', x) {
      assert LastAt(s, x);
      if x != t && (PcAt(s, x).Pushed? || PcAt(s, x).Posting?) {
        var u := PcAt(s, x).to;
        assert DequeMoves(s, s', t, u);
        assert JobAt(s, x);
        if Pushes(s, s', t) && PcAt(s, t).to == u {
          OneServer(s, t, x);
        }
      }
    }
  }
}
