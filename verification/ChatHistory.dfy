/** Promises about two moments of one run. */
module ChatHistory {
  import opened Basics
  import Session
  import opened Chat
  import opened ChatSteps
  import opened ChatInvariants
  import opened ChatLedger
  import opened ChatRuns
  import ChatTheorems

  lemma StateIsReachable(states: seq<State>, actions: seq<Action>, i: nat)
    requires Run(states, actions) && i < |states|
    ensures Reachable(states[i])
  {
    var before, done := states[..i + 1], actions[..i];
    forall k | 0 <= k < i ensures StepAt(before, done, k) {
      assert StepAt(states, actions, k);
    }
    assert Run(before, done);
  }

  lemma RunStep(states: seq<State>, actions: seq<Action>, i: nat)
    requires Run(states, actions) && i < |actions|
    ensures Inv(states[i]) && Enabled(states[i], actions[i]) && states[i + 1] == Next(states[i], actions[i])
    ensures Step(states[i], states[i + 1], actions[i].t)
  {
    InvHolds(states, actions, i);
    assert StepAt(states, actions, i);
    EnabledStep(states[i], actions[i]);
  }

  // ---- The room map

  predicate SameBinding(s: State, s': State, n: string) {
    n in s.names ==> n in s'.names && s'.names[n] == s.names[n]
  }

  lemma BindingStep(states: seq<State>, actions: seq<Action>, i: nat, n: string)
    requires Run(states, actions) && i < |actions|
    ensures SameBinding(states[i], states[i + 1], n)
  {
    RunStep(states, actions, i);
  }

  /** A name once bound keeps its room for ever. */
  lemma {:induction false} BindingsStay(states: seq<State>, actions: seq<Action>, i: nat, j: nat, n: string)
    requires Run(states, actions) && i <= j < |states|
    ensures SameBinding(states[i], states[j], n)
    decreases j
  {
    if i < j {
      BindingsStay(states, actions, i, j - 1, n);
      BindingStep(states, actions, j - 1, n);
    }
  }

  predicate OnlyRoomCalled(s: State, n: string, r: Rid) {
    r < |s.rooms| && forall q :: 0 <= q < |s.rooms| ==> (s.rooms[q].name == n <==> q == r)
  }

  /** find_or_create_room called twice with one name, at any two moments and by
      any two threads, returns the same room; that room carries the name, the
      name is valid, and no other room carries it. */
  lemma OneRoomPerName(states: seq<State>, actions: seq<Action>, i: nat, j: nat)
    requires Run(states, actions) && i <= j < |actions|
    requires actions[i].FindOrCreate? && actions[j].FindOrCreate?
    requires Enabled(states[i], actions[i]) && Enabled(states[j], actions[j])
    requires states[i].threads[actions[i].t].roomName == states[j].threads[actions[j].t].roomName
    ensures var t, n := actions[j].t, states[j].threads[actions[j].t].roomName;
            && t in states[j + 1].threads && states[j + 1].threads[t].pc.Found?
            && var r := states[j + 1].threads[t].pc.rid;
            && actions[i].t in states[i + 1].threads && states[i + 1].threads[actions[i].t].pc == Found(r)
            && Session.ValidRoomName(n) && OnlyRoomCalled(states[j + 1], n, r)
  {
    var n := states[j].threads[actions[j].t].roomName;
    RunStep(states, actions, i);
    RunStep(states, actions, j);
    BindingsStay(states, actions, i + 1, j + 1, n);
    InvHolds(states, actions, j + 1);
    FoundIsBinding(states[i], actions[i].t);
    FoundIsBinding(states[j], actions[j].t);
    BoundOnce(states[j + 1], n);
  }

  lemma FoundIsBinding(s: State, t: Tid)
    requires Enabled(s, FindOrCreate(t))
    ensures var s', n := Next(s, FindOrCreate(t)), s.threads[t].roomName;
            t in s'.threads && n in s'.names && s'.threads[t].pc == Found(s'.names[n])
  {
  }

  lemma BoundOnce(s: State, n: string)
    requires NamesOk(s) && n in s.names
    ensures Session.ValidRoomName(n) && OnlyRoomCalled(s, n, s.names[n])
  {
  }

  // ---- After the end

  predicate OverAt(s: State, u: Tid) {
    u in s.threads && u in s.queues && Over(s.threads[u].pc)
  }

  predicate StillOver(s: State, s': State, u: Tid) {
    OverAt(s, u) ==> OverAt(s', u) && s'.queues[u].pushed == s.queues[u].pushed
  }

  /** A broadcast serves members only, and whoever has left for good is none. */
  lemma NobodyServesTheGone(s: State, t: Tid, u: Tid)
    requires MembersOk(s) && JobAt(s, t) && t in s.threads && s.threads[t].pc.Pushing? && OverAt(s, u)
    ensures s.threads[t].pc.to != u
  {
    assert !InSet(s, u, s.threads[t].room.value);
  }

  lemma GoneStaysGone(s: State, a: Action, u: Tid)
    requires Enabled(s, a) && OverAt(s, u)
    ensures OverAt(Next(s, a), u)
  {
    ThreadsStep(s, a);
  }

  /** Nobody gives anything to a user whose thread has left its room for good. */
  lemma NoGiftsToTheGone(s: State, a: Action, u: Tid)
    requires MembersOk(s) && JobAt(s, a.t) && Enabled(s, a)
    ensures StillOver(s, Next(s, a), u)
  {
    if OverAt(s, u) {
      DequeStep(s, a, u);
      GoneStaysGone(s, a, u);
      if Pushes(s, Next(s, a), a.t) {
        NobodyServesTheGone(s, a.t, u);
      }
    }
  }

  lemma QuietStep(states: seq<State>, actions: seq<Action>, i: nat, u: Tid)
    requires Run(states, actions) && i < |actions|
    ensures StillOver(states[i], states[i + 1], u)
  {
    InvHolds(states, actions, i);
    assert JobAt(states[i], actions[i].t) && StepAt(states, actions, i);
    NoGiftsToTheGone(states[i], actions[i], u);
  }

  lemma StillOverTwice(s: State, s': State, s'': State, u: Tid)
    requires StillOver(s, s', u) && StillOver(s', s'', u)
    ensures StillOver(s, s'', u)
  {
  }

  /** After a user's final remove_member its queue never grows again. */
  lemma {:induction false} QuietAfterTheEnd(states: seq<State>, actions: seq<Action>, i: nat, j: nat, u: Tid)
    requires Run(states, actions) && i <= j < |states|
    ensures StillOver(states[i], states[j], u)
    decreases j
  {
    if i < j {
      QuietAfterTheEnd(states, actions, i, j - 1, u);
      QuietStep(states, actions, j - 1, u);
      StillOverTwice(states[i], states[j - 1], states[j], u);
    }
  }

  // ---- Acknowledged broadcasts

  predicate Knows(s: State, u: Tid, name: string) {
    u in s.threads && s.threads[u].username == name
  }

  predicate Remembers(s: State, s': State, u: Tid, name: string) {
    s.log <= s'.log && (Knows(s, u, name) ==> Knows(s', u, name))
  }

  lemma StepRemembers(s: State, a: Action, u: Tid, name: string)
    requires Enabled(s, a)
    ensures Remembers(s, Next(s, a), u, name)
  {
    ThreadsStep(s, a);
    LogStep(s, a);
  }

  lemma RememberStep(states: seq<State>, actions: seq<Action>, i: nat, u: Tid, name: string)
    requires Run(states, actions) && i < |actions|
    ensures Remembers(states[i], states[i + 1], u, name)
  {
    assert StepAt(states, actions, i);
    StepRemembers(states[i], actions[i], u, name);
  }

  lemma RemembersTwice(s: State, s': State, s'': State, u: Tid, name: string)
    requires Remembers(s, s', u, name) && Remembers(s', s'', u, name)
    ensures Remembers(s, s'', u, name)
  {
  }

  lemma {:induction false} LogOnlyGrows(states: seq<State>, actions: seq<Action>, i: nat, j: nat, u: Tid, name: string)
    requires Run(states, actions) && i <= j < |states|
    ensures Remembers(states[i], states[j], u, name)
    decreases j
  {
    if i < j {
      LogOnlyGrows(states, actions, i, j - 1, u, name);
      RememberStep(states, actions, j - 1, u, name);
      RemembersTwice(states[i], states[j - 1], states[j], u, name);
    }
  }

  predicate HasPostedCopy(s: State, u: Tid, e: nat, k: nat) {
    && u in s.queues && k < |s.queues[u].got| && s.queues[u].got[k] == e
    && k < s.queues[u].posts
    && k < |s.queues[u].pushed| && CarriesAt(s, s.queues[u].pushed[k], e)
    && forall j :: 0 <= j < |s.queues[u].got| && s.queues[u].got[j] == e ==> j == k
  }

  /** Acknowledged effects are visible. A broadcast gets its room at step i while u
      is a member of that room (its join is complete and its removal has not
      begun) and has another name; when the sender is about to be told "message
      was sent to all users", u has been given exactly one copy of that text, and
      the copy has been posted. */
  lemma AckedBroadcastReached(states: seq<State>, actions: seq<Action>, i: nat, j: nat, u: Tid)
    requires Run(states, actions) && i < |actions| && i < j < |states|
    requires actions[i].LockRoom? && PcAt(states[i], actions[i].t).WantBroadcast?
    requires RoomAt(states[i], actions[i].t).Some? && InSet(states[i], u, RoomAt(states[i], actions[i].t).value)
    requires u in states[i].threads && actions[i].t in states[i].threads
    requires states[i].threads[u].username != states[i].threads[actions[i].t].username
    requires PcAt(states[j], actions[i].t) == AckSend(|states[i].log|)
    ensures var t, e := actions[i].t, |states[i].log|;
            && e < |states[j].log|
            && states[j].log[e].sender == states[i].threads[t].username
            && states[j].log[e].text == PcAt(states[i], t).text
            && Some(states[j].log[e].room) == RoomAt(states[i], t)
            && exists k :: HasPostedCopy(states[j], u, e, k)
  {
    var t, e, name := actions[i].t, |states[i].log|, states[i].threads[u].username;
    assert StepAt(states, actions, i);
    assert u in RoomOf(states[i], states[i].threads[t]).members by {
      InvHolds(states, actions, i);
      assert InSet(states[i], u, RoomAt(states[i], t).value);
    }
    assert LogMoves(states[i], states[i + 1], t) by {
      LogStep(states[i], actions[i]);
    }
    assert PcAt(states[i + 1], t).Fanout? by {
      BroadcastStarts(states[i], t);
    }
    assert Knows(states[i + 1], u, name) by {
      ThreadsStep(states[i], actions[i]);
    }
    LogOnlyGrows(states, actions, i + 1, j, u, name);
    assert states[j].log[e] == states[i + 1].log[e];
    StateIsReachable(states, actions, j);
    EligibleGetsCopy(states[j], t, u, e);
  }

  lemma BroadcastStarts(s: State, t: Tid)
    requires Enabled(s, LockRoom(t)) && PcAt(s, t).WantBroadcast?
    ensures PcAt(Next(s, LockRoom(t)), t).Fanout?
  {
  }

  lemma EligibleGetsCopy(s: State, t: Tid, u: Tid, e: nat)
    requires Reachable(s) && PcAt(s, t) == AckSend(e) && u in s.threads && e < |s.log|
    requires Eligible(s.log[e], u, s.threads[u].username)
    ensures exists k :: HasPostedCopy(s, u, e, k)
  {
    ChatTheorems.AcknowledgedMeansDelivered(s, t, u);
    ChatTheorems.QueueIsFilteredLog(s, u);
    var k :| 0 <= k < |s.queues[u].got| && s.queues[u].got[k] == e && k < s.queues[u].posts
             && forall j :: 0 <= j < |s.queues[u].got| && s.queues[u].got[j] == e ==> j == k;
    assert HasPostedCopy(s, u, e, k);
  }

  // ---- The same, told from the requests

  /** Thread t is dealing with a sendall of `text` in room r, or has answered it; once
      the broadcast is logged, u is among the members it is for. */
  predicate Sending(s: State, t: Tid, text: string, r: Rid, u: Tid) {
    && t in s.threads && s.threads[t].room == Some(r)
    && match s.threads[t].pc
       case WantBroadcast(x) => x == text
       case Fanout(job) => LoggedFor(s, job.entry, t, text, r, u)
       case WantPush(job, _, _) => LoggedFor(s, job.entry, t, text, r, u)
       case Pushing(job, _, _) => LoggedFor(s, job.entry, t, text, r, u)
       case Pushed(job, _) => LoggedFor(s, job.entry, t, text, r, u)
       case Posting(job, _) => LoggedFor(s, job.entry, t, text, r, u)
       case AckSend(e) => LoggedFor(s, e, t, text, r, u)
       case Idle => true
       case _ => false
  }

  predicate LoggedFor(s: State, e: nat, t: Tid, text: string, r: Rid, u: Tid) {
    && e < |s.log| && s.log[e].author == t && s.log[e].text == text && s.log[e].room == r
    && u in s.log[e].members
  }

  lemma HearStartsSending(s: State, t: Tid, text: string, r: Rid, u: Tid)
    requires Enabled(s, Hear(t, Asked(text))) && s.threads[t].pc.Idle? && s.threads[t].room == Some(r)
    ensures Sending(Next(s, Hear(t, Asked(text))), t, text, r, u)
  {
  }

  /** The sender's own step, short of its next request. */
  lemma SenderGoesOn(s: State, a: Action, text: string, r: Rid, u: Tid)
    requires Enabled(s, a) && !a.Hear? && Sending(s, a.t, text, r, u)
    requires r < |s.rooms| && u in s.rooms[r].members
    ensures Sending(Next(s, a), a.t, text, r, u)
  {
  }

  lemma OthersLeaveSending(s: State, a: Action, t: Tid, text: string, r: Rid, u: Tid)
    requires Enabled(s, a) && a.t != t && Sending(s, t, text, r, u)
    ensures Sending(Next(s, a), t, text, r, u)
  {
    ThreadsStep(s, a);
    LogStep(s, a);
  }

  /** A user is taken out of a room's set by its own thread only. */
  lemma OnlyOwnStepRemoves(s: State, a: Action, u: Tid, r: Rid)
    requires Enabled(s, a) && InSet(s, u, r) && (a.t == u ==> !a.UpdateMembers?)
    requires r < |s.rooms| && (u in s.rooms[r].members <==> InSet(s, u, r))
    ensures InSet(Next(s, a), u, r)
  {
    ThreadsStep(s, a);
    if a.t == u {
      StaysInSet(s, a, r);
    }
  }

  lemma StaysInSet(s: State, a: Action, r: Rid)
    requires Enabled(s, a) && InSet(s, a.t, r) && !a.UpdateMembers?
    ensures InSet(Next(s, a), a.t, r)
  {
  }

  predicate InTouch(s: State, t: Tid, text: string, r: Rid, u: Tid) {
    Sending(s, t, text, r, u) && InSet(s, u, r)
  }

  lemma TouchStep(states: seq<State>, actions: seq<Action>, k: nat, t: Tid, text: string, r: Rid, u: Tid)
    requires Run(states, actions) && k < |actions| && InTouch(states[k], t, text, r, u)
    requires actions[k].t == t ==> !actions[k].Hear?
    requires actions[k].t == u ==> !actions[k].UpdateMembers?
    ensures InTouch(states[k + 1], t, text, r, u)
  {
    assert StepAt(states, actions, k);
    var s, a := states[k], actions[k];
    assert r < |s.rooms| && (u in s.rooms[r].members <==> InSet(s, u, r)) by {
      InvHolds(states, actions, k);
      assert ThreadRefs(s, s.threads[t]);
    }
    OnlyOwnStepRemoves(s, a, u, r);
    if a.t == t {
      SenderGoesOn(s, a, text, r, u);
    } else {
      OthersLeaveSending(s, a, t, text, r, u);
    }
  }

  lemma HearTouches(states: seq<State>, actions: seq<Action>, h: nat, t: Tid, text: string, r: Rid, u: Tid)
    requires Run(states, actions) && h < |actions| && actions[h] == Hear(t, Asked(text))
    requires PcAt(states[h], t).Idle? && RoomAt(states[h], t) == Some(r) && InSet(states[h], u, r) && u != t
    ensures InTouch(states[h + 1], t, text, r, u)
  {
    assert StepAt(states, actions, h);
    HearStartsSending(states[h], t, text, r, u);
    ThreadsStep(states[h], actions[h]);
  }

  lemma AnsweredForOwn(states: seq<State>, actions: seq<Action>, j: nat, t: Tid, text: string, r: Rid, u: Tid)
    requires Run(states, actions) && j < |states| && Sending(states[j], t, text, r, u) && PcAt(states[j], t).AckSend?
    ensures LoggedFor(states[j], PcAt(states[j], t).entry, t, text, r, u)
    ensures states[j].log[PcAt(states[j], t).entry].sender == states[j].threads[t].username
  {
    InvHolds(states, actions, j);
    assert EntryAt(states[j], PcAt(states[j], t).entry);
  }

  /** Between positions i and j thread t hears nothing more, and user u is neither
      put into nor taken out of a set. */
  ghost predicate Undisturbed(actions: seq<Action>, i: nat, j: nat, t: Tid, u: Tid) {
    forall k :: i <= k < j && k < |actions| ==>
      && (actions[k].t == t ==> !actions[k].Hear?)
      && (actions[k].t == u ==> !actions[k].UpdateMembers?)
  }

  lemma {:induction false} TouchLasts(states: seq<State>, actions: seq<Action>, i: nat, j: nat,
                                      t: Tid, text: string, r: Rid, u: Tid)
    requires Run(states, actions) && i <= j < |states| && Undisturbed(actions, i, j, t, u)
    requires InTouch(states[i], t, text, r, u)
    ensures InTouch(states[j], t, text, r, u)
    decreases j
  {
    if i < j {
      TouchLasts(states, actions, i, j - 1, t, text, r, u);
      TouchStep(states, actions, j - 1, t, text, r, u);
    }
  }

  /** The same promise told from the requests. User u has joined room r, and is in
      its set, when at step h the sender's thread hears a sendall in that room; no
      removal of u is carried out before the sender is about to be answered, at j.
      Then u has exactly one posted copy of that very text. */
  lemma JoinedBeforeSendallReached(states: seq<State>, actions: seq<Action>, h: nat, j: nat,
                                   t: Tid, text: string, r: Rid, u: Tid)
    requires Run(states, actions) && h < |actions| && h < j < |states|
    requires actions[h] == Hear(t, Asked(text)) && PcAt(states[h], t).Idle? && RoomAt(states[h], t) == Some(r)
    requires InSet(states[h], u, r) && u != t && u in states[j].threads && t in states[j].threads
    requires states[j].threads[u].username != states[j].threads[t].username
    requires Undisturbed(actions, h + 1, j, t, u)
    requires PcAt(states[j], t).AckSend?
    ensures var s, e := states[j], PcAt(states[j], t).entry;
            && e < |s.log| && s.log[e].author == t && s.log[e].text == text && s.log[e].room == r
            && exists k :: HasPostedCopy(s, u, e, k)
  {
    HearTouches(states, actions, h, t, text, r, u);
    TouchLasts(states, actions, h + 1, j, t, text, r, u);
    AnsweredForOwn(states, actions, j, t, text, r, u);
    StateIsReachable(states, actions, j);
    EligibleGetsCopy(states[j], t, u, PcAt(states[j], t).entry);
  }
}
