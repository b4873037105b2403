/** Every mutex that a thread waits for can be freed by the steps of at most two
    threads, and by how many is known beforehand. */
module ChatRelease {
  import opened Chat
  import opened ChatSteps
  import opened ChatRuns
  import opened ChatProgress

  // ---- Continuations

  /** A continuation of a run. */
  ghost predicate Path(states: seq<State>, actions: seq<Action>) {
    && |states| == |actions| + 1
    && forall i :: 0 <= i < |actions| ==> StepAt(states, actions, i)
  }

  lemma ReachableNext(s: State, a: Action)
    requires Reachable(s) && Enabled(s, a)
    ensures Reachable(Next(s, a))
  {
    var states, actions :| Run(states, actions) && s == states[|states| - 1];
    var states', actions' := states + [Next(s, a)], actions + [a];
    forall i | 0 <= i < |actions'| ensures StepAt(states', actions', i) {
      if i < |actions| {
        assert StepAt(states, actions, i);
      }
    }
    assert Run(states', actions');
  }

  lemma PathCons(s: State, a: Action, states: seq<State>, actions: seq<Action>)
    requires Path(states, actions) && Enabled(s, a) && states[0] == Next(s, a)
    ensures Path([s] + states, [a] + actions)
  {
    var states', actions' := [s] + states, [a] + actions;
    forall i | 0 <= i < |actions'| ensures StepAt(states', actions', i) {
      if i > 0 {
        assert StepAt(states, actions, i - 1);
      }
    }
  }

  // ---- Who steps

  /** The holder, or the holder of the queue's mutex that it waits for itself. */
  function Mover(s: State, h: Tid): Tid {
    if Blocked(s, h) then Holder(s, h) else h
  }

  /** How many own steps are left until the mutex of a queue is released. */
  function QueueWork(pc: PC): nat {
    if pc.Pushing? || pc.Popping? then 2 else if pc.Pushed? || pc.Popped? then 1 else 0
  }

  /** How many steps of movers are left, at most, until thread h holds no lock. */
  function Measure(s: State, h: Tid): nat {
    3 * Work(PcAt(s, h)) + if Blocked(s, h) then QueueWork(PcAt(s, Holder(s, h))) else 0
  }

  lemma QueueWorkShrinks(s: State, a: Action)
    requires Enabled(s, a) && HoldsQueue(PcAt(s, a.t))
    ensures QueueWork(PcAt(Next(s, a), a.t)) < QueueWork(PcAt(s, a.t))
  {
  }

  /** The mover can step, and it is not the one that waits. */
  lemma MoverSteps(s: State, t: Tid)
    requires Reachable(s) && Blocked(s, t)
    ensures var h := Holder(s, t);
            && h in s.threads && h != t && Critical(PcAt(s, h))
            && Mover(s, h) in s.threads && Mover(s, h) != t
            && Enabled(s, NextAction(s, Mover(s, h)))
            && (Blocked(s, h) ==> PcAt(s, h).WantPush? && HoldsQueue(PcAt(s, Mover(s, h))))
  {
    NoDeadlock(s, t);
    ReachableHolder(s, t);
    if Blocked(s, Holder(s, t)) {
      ReachableHolder(s, Holder(s, t));
    }
  }

  lemma NextIsOwn(s: State, t: Tid)
    requires t in s.threads
    ensures NextAction(s, t).t == t
  {
  }

  /** While others step, a waiting thread stays where it is, and its mutex stays with
      its holder until it is free. */
  lemma StillHeld(s: State, t: Tid, a: Action)
    requires Blocked(s, t) && Enabled(s, a) && a.t != t
    ensures PcAt(Next(s, a), t) == PcAt(s, t)
    ensures Blocked(Next(s, a), t) ==> Holder(Next(s, a), t) == Holder(s, t)
  {
    ThreadsStep(s, a);
    var th := s.threads[t];
    if th.pc.WantServer? {
      ServerStep(s, a);
    } else if WantsRoom(th.pc) {
      RoomLockStep(s, a, th.room.value);
    } else {
      QueueLockStep(s, a, QueueOf(t, th.pc));
    }
  }

  lemma HolderMoves(s: State, t: Tid)
    requires Reachable(s) && Blocked(s, t) && !Blocked(s, Holder(s, t)) && Holder(s, t) in s.threads
    requires Enabled(s, NextAction(s, Holder(s, t))) && Critical(PcAt(s, Holder(s, t)))
    ensures Measure(Next(s, NextAction(s, Holder(s, t))), Holder(s, t)) < Measure(s, Holder(s, t))
  {
    NextIsOwn(s, Holder(s, t));
    WorkShrinks(s, NextAction(s, Holder(s, t)));
  }

  lemma QueueHolderMoves(s: State, h: Tid)
    requires Blocked(s, h) && Holder(s, h) in s.threads && Holder(s, h) != h && HoldsQueue(PcAt(s, Holder(s, h)))
    requires Enabled(s, NextAction(s, Holder(s, h)))
    ensures Measure(Next(s, NextAction(s, Holder(s, h))), h) < Measure(s, h)
  {
    var a := NextAction(s, Holder(s, h));
    NextIsOwn(s, Holder(s, h));
    StillHeld(s, h, a);
    QueueWorkShrinks(s, a);
  }

  /** Every step of a mover counts. */
  lemma MeasureDrops(s: State, t: Tid)
    requires Reachable(s) && Blocked(s, t)
    ensures Holder(s, t) in s.threads && Mover(s, Holder(s, t)) in s.threads
    ensures Enabled(s, NextAction(s, Mover(s, Holder(s, t))))
    ensures Measure(Next(s, NextAction(s, Mover(s, Holder(s, t)))), Holder(s, t)) < Measure(s, Holder(s, t))
  {
    var h := Holder(s, t);
    MoverSteps(s, t);
    if Blocked(s, h) {
      QueueHolderMoves(s, h);
    } else {
      HolderMoves(s, t);
    }
  }

  // ---- Release

  /** The waiting thread has not moved and waits no longer; before that h held its
      mutex all the time, and only h and whoever h waited for have stepped. */
  ghost predicate Frees(s: State, t: Tid, h: Tid, states: seq<State>, actions: seq<Action>) {
    && Path(states, actions) && states[0] == s
    && !Blocked(states[|actions|], t) && PcAt(states[|actions|], t) == PcAt(s, t)
    && forall i :: 0 <= i < |actions| ==> MoverOf(states[i], t, h, actions[i])
  }

  predicate MoverOf(s: State, t: Tid, h: Tid, a: Action) {
    Blocked(s, t) && Holder(s, t) == h && a.t == Mover(s, h)
  }

  lemma FreesNow(s: State, t: Tid, h: Tid, a: Action)
    requires Enabled(s, a) && MoverOf(s, t, h, a)
    requires !Blocked(Next(s, a), t) && PcAt(Next(s, a), t) == PcAt(s, t)
    ensures Frees(s, t, h, [s, Next(s, a)], [a])
  {
    assert StepAt([s, Next(s, a)], [a], 0);
  }

  lemma FreesLater(s: State, t: Tid, h: Tid, a: Action, states: seq<State>, actions: seq<Action>)
    requires Enabled(s, a) && MoverOf(s, t, h, a) && PcAt(Next(s, a), t) == PcAt(s, t)
    requires Frees(Next(s, a), t, h, states, actions)
    ensures Frees(s, t, h, [s] + states, [a] + actions)
  {
    PathCons(s, a, states, actions);
    var states', actions' := [s] + states, [a] + actions;
    forall i | 0 <= i < |actions'| ensures MoverOf(states'[i], t, h, actions'[i]) {
      if i > 0 {
        assert MoverOf(states[i - 1], t, h, actions[i - 1]);
      }
    }
  }

  lemma OneMove(s: State, t: Tid) returns (a: Action)
    requires Reachable(s) && Blocked(s, t)
    ensures Enabled(s, a) && MoverOf(s, t, Holder(s, t), a) && Reachable(Next(s, a))
    ensures PcAt(Next(s, a), t) == PcAt(s, t)
    ensures Blocked(Next(s, a), t) ==> Holder(Next(s, a), t) == Holder(s, t)
    ensures Measure(Next(s, a), Holder(s, t)) < Measure(s, Holder(s, t))
  {
    MoverSteps(s, t);
    MeasureDrops(s, t);
    a := NextAction(s, Mover(s, Holder(s, t)));
    NextIsOwn(s, Mover(s, Holder(s, t)));
    StillHeld(s, t, a);
    ReachableNext(s, a);
  }

  /** From every reachable state in which t waits for a mutex, the mutex can be freed
      by steps of its holder and of whoever that waits for: at most three for each
      step that the holder has left in its critical sections, and two more. */
  lemma {:induction false} BlockedCanBeFreed(s: State, t: Tid) returns (states: seq<State>, actions: seq<Action>)
    requires Reachable(s) && Blocked(s, t)
    ensures Frees(s, t, Holder(s, t), states, actions)
    ensures |actions| <= Measure(s, Holder(s, t)) <= 3 * Work(PcAt(s, Holder(s, t))) + 2
    decreases Measure(s, Holder(s, t))
  {
    var h := Holder(s, t);
    var a := OneMove(s, t);
    if Blocked(Next(s, a), t) {
      states, actions := BlockedCanBeFreed(Next(s, a), t);
      FreesLater(s, t, h, a, states, actions);
      states, actions := [s] + states, [a] + actions;
    } else {
      FreesNow(s, t, h, a);
      states, actions := [s, Next(s, a)], [a];
    }
  }

  /** The same as a statement about what exists. */
  lemma SomeContinuationFrees(s: State, t: Tid)
    requires Reachable(s) && Blocked(s, t)
    ensures exists states, actions :: Frees(s, t, Holder(s, t), states, actions)
                                      && |actions| <= 3 * Work(PcAt(s, Holder(s, t))) + 2
  {
    var states, actions := BlockedCanBeFreed(s, t);
  }
}
