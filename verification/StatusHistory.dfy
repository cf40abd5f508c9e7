/**
 * What the statuses of the images and the event log say about each other in every
 * reachable state.
 */
module StatusHistory {
  import opened Statuses
  import opened Attempts
  import opened Protocol
  import opened Counting
  import opened CountingSteps
  import opened Drain

  // ---------------------------------------------------------------- views of the log

  /** The result of the last attempt of `t` that is over. */
  function LastTry(log: seq<Event>, t: Task): Option<bool> {
    if log == [] then None
    else
      var e := log[|log| - 1];
      if e.Ended? && e.task == t then Some(e.ok) else LastTry(log[..|log| - 1], t)
  }

  lemma LastTrySnoc(log: seq<Event>, e: Event, t: Task)
    ensures LastTry(log + [e], t) == (if e.Ended? && e.task == t then Some(e.ok) else LastTry(log, t))
  {
    assert (log + [e])[..|log|] == log;
  }

  lemma {:induction false} LastTryNone(log: seq<Event>, t: Task)
    requires Count(log, Ended(t, true)) == 0 && Count(log, Ended(t, false)) == 0
    ensures LastTry(log, t) == None
  {
    if log != [] {
      LastTryNone(log[..|log| - 1], t);
    }
  }

  /** A push attempt of the image has written an error status. */
  predicate PushFailed(log: seq<Event>, x: Id) {
    Wrote(Push(x), ConnectionError) in log || Wrote(Push(x), PushError) in log
  }

  /** Attempts of the task that are over. */
  function Tries(s: State, t: Task): nat { N(s, Ended(t, true)) + N(s, Ended(t, false)) }

  /** How often the task has been taken from a queue. */
  function Taken(p: Plan, s: State, t: Task): nat {
    G(p, s, Early, t) + G(p, s, Late, t) + N(s, Closed(t))
  }

  // ---------------------------------------------------------------- attempts are bounded

  ghost predicate TriesFor(p: Plan, s: State, t: Task) {
    && (Taken(p, s, t) == 0 ==> Tries(s, t) == 0)
    && Tries(s, t) <= p.retries + 1
    && (Normal(s.main) ==> N(s, GaveUp(t, true)) == 0)
    && (Normal(s.main) && N(s, GaveUp(t, false)) > 0 ==> Tries(s, t) == p.retries + 1)
  }

  predicate TriesAt(p: Plan, s: State, pc: Pc) {
    pc.On? ==>
      var k := Tries(s, pc.task);
      match pc.phase
      case Trying(tries) => k == tries <= p.retries + 1
      case Began(tries) => k == tries <= p.retries
      case Guarding(tries) => k == tries <= p.retries
      case Writing(tries, _, _) => k == tries <= p.retries
      case Tried(ok) => Normal(s.main) && !ok ==> k == p.retries + 1
      case _ => true
  }

  ghost predicate TriesSound(p: Plan, s: State) {
    && (forall t: Task :: !t.Tomb? ==> TriesFor(p, s, t))
    && (forall i :: 0 <= i < |s.workers| ==> TriesAt(p, s, s.workers[i].pc))
  }

  /** What a worker step leaves alone: everything about a task that the worker does not hold. */
  lemma Elsewhere(p: Plan, s: State, w: nat, o: Oracle, t: Task)
    requires CanStep(s, w) && WellTyped(p, s.workers[w]) && s.workers[w].pc.On? && t != s.workers[w].pc.task
    ensures var s' := WorkerStep(p, s, w, o);
      && Taken(p, s', t) == Taken(p, s, t)
      && G(p, s', Mid, t) == G(p, s, Mid, t)
      && G(p, s', Early, t) == G(p, s, Early, t)
      && N(s', Ended(t, true)) == N(s, Ended(t, true)) && N(s', Ended(t, false)) == N(s, Ended(t, false))
      && N(s', Expanded(t)) == N(s, Expanded(t))
      && N(s', GaveUp(t, true)) == N(s, GaveUp(t, true)) && N(s', GaveUp(t, false)) == N(s, GaveUp(t, false))
      && LastTry(s'.log, t) == LastTry(s.log, t)
  {
    hide WorkerStep, Count, Sum, LastTry, Typed, WellTyped;
    var s' := WorkerStep(p, s, w, o);
    var me := s.workers[w];
    WorkerFrame(p, s, w, o);
    WorkerLogs(p, s, w, o);
    AboutTask(p, s, w, o);
    var ev := if s'.log == s.log then [] else [s'.log[|s.log|]];
    Moved(p, s, s', w, ev, Early, t);
    Moved(p, s, s', w, ev, Late, t);
    Moved(p, s, s', w, ev, Mid, t);
    if ev != [] { LastTrySnoc(s.log, ev[0], t); }
    LoggedAll(s, s', w, ev, t);
    NotAbout(ev, t);
  }

  /** The counts of the events about `t` after a step. */
  lemma LoggedAll(s: State, s': State, w: nat, ev: seq<Event>, t: Task)
    requires Moves(s, s', w, ev)
    ensures N(s', Ended(t, true)) == N(s, Ended(t, true)) + Count(ev, Ended(t, true))
    ensures N(s', Ended(t, false)) == N(s, Ended(t, false)) + Count(ev, Ended(t, false))
    ensures N(s', Expanded(t)) == N(s, Expanded(t)) + Count(ev, Expanded(t))
    ensures N(s', GaveUp(t, true)) == N(s, GaveUp(t, true)) + Count(ev, GaveUp(t, true))
    ensures N(s', GaveUp(t, false)) == N(s, GaveUp(t, false)) + Count(ev, GaveUp(t, false))
    ensures N(s', Closed(t)) == N(s, Closed(t)) + Count(ev, Closed(t))
  {
    Logged(s, s', w, ev, Ended(t, true));
    Logged(s, s', w, ev, Ended(t, false));
    Logged(s, s', w, ev, Expanded(t));
    Logged(s, s', w, ev, GaveUp(t, true));
    Logged(s, s', w, ev, GaveUp(t, false));
    Logged(s, s', w, ev, Closed(t));
    hide Count;
  }

  /** The events by which a task's own progress is recorded. */
  predicate Progress(e: Event, t: Task) {
    (e.Ended? || e.Expanded? || e.GaveUp? || e.Closed?) && e.task == t
  }

  lemma NotAbout(ev: seq<Event>, t: Task)
    requires ev == [] || (|ev| == 1 && !Progress(ev[0], t))
    ensures Count(ev, Ended(t, true)) == Count(ev, Ended(t, false)) == Count(ev, Expanded(t)) == 0
    ensures Count(ev, GaveUp(t, true)) == Count(ev, GaveUp(t, false)) == Count(ev, Closed(t)) == 0
  {
    CountIn(ev, Ended(t, true));
    CountIn(ev, Ended(t, false));
    CountIn(ev, Expanded(t));
    CountIn(ev, GaveUp(t, true));
    CountIn(ev, GaveUp(t, false));
    CountIn(ev, Closed(t));
    hide Count;
  }

  /** A busy worker logs only the progress of its own task, and stays with it. */
  lemma AboutTask(p: Plan, s: State, w: nat, o: Oracle)
    requires CanStep(s, w) && s.workers[w].pc.On?
    ensures var s' := WorkerStep(p, s, w, o);
      && (s'.log != s.log ==> |s'.log| > |s.log|)
      && (s'.log != s.log ==> forall t :: Progress(s'.log[|s.log|], t) ==> t == s.workers[w].pc.task)
      && (s'.workers[w].pc.On? ==> s'.workers[w].pc.task == s.workers[w].pc.task)
  {
    hide WorkerStep, Progress;
    if s.workers[w].pc.phase.Writing? || s.workers[w].pc.phase.Began? || s.workers[w].pc.phase.Guarding? {
      AboutAttempt(p, s, w, o);
    } else {
      AboutRest(p, s, w, o);
    }
  }

  lemma AboutAttempt(p: Plan, s: State, w: nat, o: Oracle)
    requires CanStep(s, w) && s.workers[w].pc.On?
    requires s.workers[w].pc.phase.Writing? || s.workers[w].pc.phase.Began? || s.workers[w].pc.phase.Guarding?
    ensures var s' := WorkerStep(p, s, w, o);
      && (s'.log != s.log ==> |s'.log| > |s.log|)
      && (s'.log != s.log ==> forall t :: Progress(s'.log[|s.log|], t) ==> t == s.workers[w].pc.task)
      && (s'.workers[w].pc.On? ==> s'.workers[w].pc.task == s.workers[w].pc.task)
  {
    hide At, Written, Succeeds, Children, FirstFollowups, BuildAttempt, IsError, Excluded, PushWrite, Parent, QueueOf;
  }

  lemma AboutRest(p: Plan, s: State, w: nat, o: Oracle)
    requires CanStep(s, w) && s.workers[w].pc.On?
    requires !(s.workers[w].pc.phase.Writing? || s.workers[w].pc.phase.Began? || s.workers[w].pc.phase.Guarding?)
    ensures var s' := WorkerStep(p, s, w, o);
      && (s'.log != s.log ==> |s'.log| > |s.log|)
      && (s'.log != s.log ==> forall t :: Progress(s'.log[|s.log|], t) ==> t == s.workers[w].pc.task)
      && (s'.workers[w].pc.On? ==> s'.workers[w].pc.task == s.workers[w].pc.task)
  {
    hide At, Written, Succeeds, Children, FirstFollowups, BuildAttempt, IsError, Excluded, PushWrite, Parent, QueueOf;
  }

  /** A task is in the hands of one worker at most. */
  lemma SoleHolder(p: Plan, s: State, i: nat, j: nat)
    requires Counted(p, s) && i < |s.workers| && j < |s.workers|
    requires s.workers[i].pc.On? && s.workers[j].pc.On? && s.workers[i].pc.task == s.workers[j].pc.task
    requires !s.workers[i].pc.task.Tomb?
    ensures i == j
  {
    var t := s.workers[i].pc.task;
    if i != j {
      var a, b := if i < j then i else j, if i < j then j else i;
      HeldOnce(p, s, i);
      HeldOnce(p, s, j);
      assert CountedFor(p, s, t);
      SumHasBoth(RoleOf(p, Early, t), s.workers, a, b);
      SumHasBoth(RoleOf(p, Late, t), s.workers, a, b);
    }
    hide Sum, Count, Due, N;
  }

  /** The own task of a worker stays taken. */
  lemma OwnTaken(p: Plan, s: State, w: nat, o: Oracle)
    requires CanStep(s, w) && WellTyped(p, s.workers[w]) && s.workers[w].pc.On?
    ensures Taken(p, WorkerStep(p, s, w, o), s.workers[w].pc.task) == Taken(p, s, s.workers[w].pc.task)
  {
    var s' := WorkerStep(p, s, w, o);
    var me := s.workers[w];
    var t := me.pc.task;
    WorkerFrame(p, s, w, o);
    WorkerLogs(p, s, w, o);
    PhaseStep(p, s, w, o);
    var ev := if s'.log == s.log then [] else [s'.log[|s.log|]];
    hide WorkerStep, WellTyped;
    Moved(p, s, s', w, ev, Early, t);
    Moved(p, s, s', w, ev, Late, t);
    Logged(s, s', w, ev, Closed(t));
    CountIn(ev, Closed(t));
    if ev != [] { CountOne(ev[0], Closed(t)); }
    hide Count, Sum, Moves, G, N;
  }

  /** A step in the attempt loop. */
  lemma LoopStep(p: Plan, s: State, w: nat, o: Oracle)
    requires CanStep(s, w) && s.workers[w].pc.On? && !Decided(s.workers[w].pc.phase) && !s.workers[w].pc.phase.Tried?
    ensures
      var s' := WorkerStep(p, s, w, o);
      var t, pc' := s.workers[w].pc.task, s'.workers[w].pc;
      && pc'.On? && pc'.task == t && !Decided(pc'.phase)
      && (s'.log == s.log || (s'.log == s.log + [s'.log[|s'.log| - 1]] && !s'.log[|s'.log| - 1].Closed?))
  {
    hide At, Written, Succeeds, Children, FirstFollowups, BuildAttempt, IsError, Excluded, PushWrite, Parent;
  }

  /** A step behind the attempt loop. */
  lemma EndStep(p: Plan, s: State, w: nat, o: Oracle)
    requires CanStep(s, w) && s.workers[w].pc.On? && (Decided(s.workers[w].pc.phase) || s.workers[w].pc.phase.Tried?)
    ensures
      var s' := WorkerStep(p, s, w, o);
      var t, ph, pc' := s.workers[w].pc.task, s.workers[w].pc.phase, s'.workers[w].pc;
      && (ph.Closing? ==> pc' == Idle && s'.log == s.log + [Closed(t)])
      && (!ph.Closing? ==> pc'.On? && pc'.task == t && Decided(pc'.phase))
      && (!ph.Closing? ==>
            s'.log == s.log || (s'.log == s.log + [s'.log[|s'.log| - 1]] && !s'.log[|s'.log| - 1].Closed?))
  {
    hide At, Written, Succeeds, Children, FirstFollowups, BuildAttempt, IsError, Excluded, PushWrite, Parent;
  }

  /** The event by which a phase ends, and what follows it. */
  lemma PhaseStep(p: Plan, s: State, w: nat, o: Oracle)
    requires CanStep(s, w) && s.workers[w].pc.On?
    ensures
      var s' := WorkerStep(p, s, w, o);
      var me, pc' := s.workers[w], s'.workers[w].pc;
      var t, ph := me.pc.task, me.pc.phase;
      && (ph.Closing? ==> pc' == Idle && s'.log == s.log + [Closed(t)])
      && (!ph.Closing? ==> pc'.On? && pc'.task == t && (s'.log == s.log || s'.log == s.log + [s'.log[|s'.log| - 1]]))
      && (!ph.Closing? && s'.log != s.log ==> !s'.log[|s'.log| - 1].Closed?)
      && (Decided(ph) && !ph.Closing? ==> Decided(pc'.phase))
      && (ph.Tried? ==> Decided(pc'.phase))
      && (!Decided(ph) && !ph.Tried? ==> !Decided(pc'.phase))
  {
    hide WorkerStep;
    if Decided(s.workers[w].pc.phase) || s.workers[w].pc.phase.Tried? {
      EndStep(p, s, w, o);
    } else {
      LoopStep(p, s, w, o);
    }
  }

  ghost predicate OwnPre(p: Plan, s: State, w: nat) {
    && CanStep(s, w) && s.workers[w].pc.On? && WellTyped(p, s.workers[w])
    && TriesFor(p, s, s.workers[w].pc.task) && TriesAt(p, s, s.workers[w].pc)
    && (Normal(s.main) ==> !s.workers[w].stop)
    && Taken(p, s, s.workers[w].pc.task) > 0
    && (!Decided(s.workers[w].pc.phase) ==> N(s, GaveUp(s.workers[w].pc.task, false)) == 0)
  }

  /** What the attempt loop logs about the task of the worker. */
  lemma OwnLog(p: Plan, s: State, w: nat, o: Oracle)
    requires CanStep(s, w) && WellTyped(p, s.workers[w]) && s.workers[w].pc.On?
    requires !Decided(s.workers[w].pc.phase) && !s.workers[w].pc.phase.Tried?
    ensures var s', t, ph := WorkerStep(p, s, w, o), s.workers[w].pc.task, s.workers[w].pc.phase;
      && N(s', GaveUp(t, true)) == N(s, GaveUp(t, true)) && N(s', GaveUp(t, false)) == N(s, GaveUp(t, false))
      && Tries(s', t) == Tries(s, t) + Bit(ph.Writing? && (ph.writes == [] || t.Tomb?))
  {
    var s' := WorkerStep(p, s, w, o);
    var me := s.workers[w];
    var t, ph := me.pc.task, me.pc.phase;
    WorkerFrame(p, s, w, o);
    WorkerLogs(p, s, w, o);
    var ev := if s'.log == s.log then [] else [s'.log[|s.log|]];
    LoggedAll(s, s', w, ev, t);
    if ph.Writing? && (ph.writes == [] || t.Tomb?) {
      CountOneOf(ev, ev[0], t);
      CountOne(ev[0], Ended(t, false));
    } else {
      NotAbout(ev, t);
    }
    hide Count, Sum, Moves, N, WellTyped;
  }

  /** How the attempts of a worker's own task are counted in the attempt loop. */
  lemma OwnTriesLoop(p: Plan, s: State, w: nat, o: Oracle)
    requires OwnPre(p, s, w) && !Decided(s.workers[w].pc.phase) && !s.workers[w].pc.phase.Tried?
    ensures var s' := WorkerStep(p, s, w, o);
      TriesFor(p, s', s.workers[w].pc.task) && TriesAt(p, s', s'.workers[w].pc)
  {
    hide Count, Sum, Moves, Taken, N, Tries, WellTyped;
    WorkerFrame(p, s, w, o);
    OwnTaken(p, s, w, o);
    OwnLog(p, s, w, o);
    hide Decided, Written, Succeeds;
  }

  /** What a worker logs about its own task behind the loop. */
  lemma OwnLogEnd(p: Plan, s: State, w: nat, o: Oracle)
    requires CanStep(s, w) && WellTyped(p, s.workers[w]) && s.workers[w].pc.On?
    requires Decided(s.workers[w].pc.phase) || s.workers[w].pc.phase.Tried?
    ensures var s', t, ph := WorkerStep(p, s, w, o), s.workers[w].pc.task, s.workers[w].pc.phase;
      && Tries(s', t) == Tries(s, t)
      && N(s', GaveUp(t, true)) == N(s, GaveUp(t, true)) + Bit(ph == Tried(true) && s.workers[w].stop)
      && N(s', GaveUp(t, false)) == N(s, GaveUp(t, false)) + Bit(ph == Tried(false))
  {
    hide WellTyped, N, Children, FirstFollowups, Excluded, At, TypedPhase;
    var s' := WorkerStep(p, s, w, o);
    var me := s.workers[w];
    var t, ph := me.pc.task, me.pc.phase;
    WorkerFrame(p, s, w, o);
    WorkerLogs(p, s, w, o);
    var ev := if s'.log == s.log then [] else [s'.log[|s.log|]];
    LoggedAll(s, s', w, ev, t);
    if ph.Tried? || ph.Closing? {
      CountOneOf(ev, ev[0], t);
      CountOne(ev[0], Ended(t, false));
    } else {
      NotAbout(ev, t);
    }
    hide Count, Sum, Moves;
  }

  /** Behind the loop no attempt is counted any more. */
  lemma OwnTriesEnd(p: Plan, s: State, w: nat, o: Oracle)
    requires OwnPre(p, s, w) && (Decided(s.workers[w].pc.phase) || s.workers[w].pc.phase.Tried?)
    ensures var s' := WorkerStep(p, s, w, o);
      TriesFor(p, s', s.workers[w].pc.task) && TriesAt(p, s', s'.workers[w].pc)
  {
    hide Count, Sum, Moves, Taken, N, Tries, WellTyped, WorkerStep;
    WorkerFrame(p, s, w, o);
    OwnTaken(p, s, w, o);
    OwnLogEnd(p, s, w, o);
    EndStep(p, s, w, o);
  }

  /** A task in a queue has not been taken, and one taken is not in a queue. */
  lemma QueuedNotTaken(p: Plan, s: State, pool: Pool, t: Task)
    requires Counted(p, s) && t in Items(s, pool) && !t.Tomb?
    ensures Taken(p, s, t) == 0 && N(s, Queued(t)) == 1
  {
    assert CountedFor(p, s, t);
    CountIn(s.build.items, t);
    CountIn(s.push.items, t);
    hide Count, Sum, Due;
  }

  /** The steps of a worker without a task. */
  lemma IdleStep(p: Plan, s: State, w: nat, o: Oracle)
    requires CanStep(s, w) && !s.workers[w].pc.On? && WellTyped(p, s.workers[w])
    ensures var s', me := WorkerStep(p, s, w, o), s.workers[w];
      && s'.status == s.status
      && s'.log == s.log + (if me.pc.Reput? then [TombPut(me.pool)] else [])
      && (s'.workers[w].pc.On? ==> me.pc.Waiting? && Items(s, me.pool) != [] && !Items(s, me.pool)[0].Tomb?)
      && (s'.workers[w].pc.On? ==> Items(s, me.pool) != [] && s'.workers[w].pc == On(Items(s, me.pool)[0], Trying(0)))
  {
    hide TaskStep;
    assert s.log + [] == s.log;
  }

  /** The roles that a worker without a task gives to one. */
  lemma IdleRoles(p: Plan, s: State, s': State, w: nat, ev: seq<Event>, t: Task)
    requires Moves(s, s', w, ev) && !t.Tomb? && !s.workers[w].pc.On?
    requires s'.workers[w].pc.On? ==> s'.workers[w].pc.phase == Trying(0)
    requires Count(ev, Closed(t)) == 0
    ensures Taken(p, s', t) == Taken(p, s, t) + Bit(s'.workers[w].pc == On(t, Trying(0)))
    ensures G(p, s', Mid, t) == G(p, s, Mid, t)
  {
    hide Count, Sum, Moves;
    Moved(p, s, s', w, ev, Early, t);
    Moved(p, s, s', w, ev, Late, t);
    Moved(p, s, s', w, ev, Mid, t);
    Logged(s, s', w, ev, Closed(t));
  }

  lemma MovesIs(s: State, s': State, w: nat, ev: seq<Event>)
    requires w < |s.workers| == |s'.workers| && s'.log == s.log + ev
    requires s'.workers == s.workers[w := s.workers[w].(pc := s'.workers[w].pc)]
    ensures Moves(s, s', w, ev)
  {
  }

  lemma TombCounts(ev: seq<Event>, pool: Pool, e: Event)
    requires (ev == [] || ev == [TombPut(pool)]) && !e.TombPut?
    ensures Count(ev, e) == 0
  {
    CountIn(ev, e);
    hide Count;
  }

  /** What a worker without a task changes: at most, it takes the first task of its queue. */
  lemma LoopFrame(p: Plan, s: State, w: nat, o: Oracle, t: Task)
    requires CanStep(s, w) && WellTyped(p, s.workers[w]) && !s.workers[w].pc.On? && !t.Tomb?
    ensures var s' := WorkerStep(p, s, w, o);
      && s'.status == s.status
      && Taken(p, s', t) == Taken(p, s, t) + Bit(s'.workers[w].pc == On(t, Trying(0)))
      && G(p, s', Mid, t) == G(p, s, Mid, t)
      && (s'.workers[w].pc.On? ==> s.workers[w].pc.Waiting? && !s'.workers[w].pc.task.Tomb?)
      && (s'.workers[w].pc.On? ==> Items(s, s.workers[w].pool) != [] && s'.workers[w].pc == On(Items(s, s.workers[w].pool)[0], Trying(0)))
      && (forall e: Event :: !e.TombPut? ==> N(s', e) == N(s, e))
      && LastTry(s'.log, t) == LastTry(s.log, t)
  {
    hide Count, Sum, G, N, Taken, LastTry, Moves, WorkerStep, WellTyped, Items;
    var s', me := WorkerStep(p, s, w, o), s.workers[w];
    IdleStep(p, s, w, o);
    WorkerFrame(p, s, w, o);
    var ev := if me.pc.Reput? then [TombPut(me.pool)] else [];
    MovesIs(s, s', w, ev);
    TombCounts(ev, me.pool, Closed(t));
    IdleRoles(p, s, s', w, ev, t);
    if ev != [] { LastTrySnoc(s.log, ev[0], t); } else { assert s.log + [] == s.log; }
    forall e: Event | !e.TombPut? ensures N(s', e) == N(s, e) {
      Logged(s, s', w, ev, e);
      TombCounts(ev, me.pool, e);
    }
  }

  lemma TriesWork(p: Plan, s: State, w: nat, o: Oracle)
    requires Typed(p, s) && Counted(p, s) && CanStep(s, w) && TriesSound(p, s) && Launching(s)
    ensures TriesSound(p, WorkerStep(p, s, w, o))
  {
    var s' := WorkerStep(p, s, w, o);
    var me := s.workers[w];
    assert WellTyped(p, me);
    WorkerFrame(p, s, w, o);
    if me.pc.On? {
      var u := me.pc.task;
      assert OwnPre(p, s, w) by { HeldOnce(p, s, w); assert CountedFor(p, s, u); assert TriesFor(p, s, u); }
      if Decided(me.pc.phase) || me.pc.phase.Tried? {
        OwnTriesEnd(p, s, w, o);
      } else {
        OwnTriesLoop(p, s, w, o);
      }
      forall t: Task | !t.Tomb? ensures TriesFor(p, s', t) {
        assert TriesFor(p, s, t);
        if t != u { Elsewhere(p, s, w, o, t); }
        hide WorkerStep, Taken, N;
      }
      forall i | 0 <= i < |s.workers| ensures TriesAt(p, s', s'.workers[i].pc) {
        if i != w && s.workers[i].pc.On? {
          assert WellTyped(p, s.workers[i]);
          if s.workers[i].pc.task == u { SoleHolder(p, s, i, w); }
          Elsewhere(p, s, w, o, s.workers[i].pc.task);
        }
        hide WorkerStep, Taken, N;
      }
      hide WorkerStep, TriesFor, TriesAt;
    } else {
      TriesLoop(p, s, w, o);
      hide WorkerStep, TriesFor, TriesAt;
    }
  }

  lemma TriesLoop(p: Plan, s: State, w: nat, o: Oracle)
    requires Typed(p, s) && Counted(p, s) && CanStep(s, w) && TriesSound(p, s) && !s.workers[w].pc.On?
    ensures TriesSound(p, WorkerStep(p, s, w, o))
  {
    var s' := WorkerStep(p, s, w, o);
    assert WellTyped(p, s.workers[w]);
    WorkerFrame(p, s, w, o);
    hide WorkerStep;
    forall t: Task | !t.Tomb? ensures TriesFor(p, s', t) {
      assert TriesFor(p, s, t);
      LoopFrame(p, s, w, o, t);
      hide N, Taken;
    }
    forall i | 0 <= i < |s.workers| ensures TriesAt(p, s', s'.workers[i].pc) {
      TriesLoopAt(p, s, w, o, i);
    }
    hide TriesAt, TriesFor;
  }

  lemma TriesLoopAt(p: Plan, s: State, w: nat, o: Oracle, i: nat)
    requires Typed(p, s) && Counted(p, s) && CanStep(s, w) && TriesSound(p, s) && !s.workers[w].pc.On?
    requires i < |s.workers|
    ensures i < |WorkerStep(p, s, w, o).workers| && TriesAt(p, WorkerStep(p, s, w, o), WorkerStep(p, s, w, o).workers[i].pc)
  {
    hide WorkerStep, Counted, N, Taken, TaskStep;
    var s' := WorkerStep(p, s, w, o);
    assert WellTyped(p, s.workers[w]) && TriesAt(p, s, s.workers[i].pc);
    hide WellTyped, Typed;
    WorkerFrame(p, s, w, o);
    LoopFrame(p, s, w, o, Build(0));
    if i == w && s'.workers[w].pc.On? {
      NewlyTaken(p, s, s', w, s'.workers[w].pc.task);
    }
  }

  lemma NewlyTaken(p: Plan, s: State, s': State, w: nat, t: Task)
    requires Counted(p, s) && TriesSound(p, s) && w < |s.workers| && !t.Tomb?
    requires Items(s, s.workers[w].pool) != [] && t == Items(s, s.workers[w].pool)[0]
    requires N(s', Ended(t, true)) == N(s, Ended(t, true)) && N(s', Ended(t, false)) == N(s, Ended(t, false))
    ensures Tries(s', t) == 0
  {
    hide Counted, N, Taken;
    assert t in Items(s, s.workers[w].pool);
    QueuedNotTaken(p, s, s.workers[w].pool, t);
    assert TriesFor(p, s, t);
  }

  lemma TriesMain(p: Plan, s: State, a: Action)
    requires Enabled(s, a) && !a.Work? && Launching(s) && TriesSound(p, s)
    ensures TriesSound(p, Step(p, s, a))
  {
    var s' := Step(p, s, a);
    MainFrame(p, s, a);
    assert Normal(s'.main) ==> Normal(s.main);
    hide Step, Sum, Count, G, N;
    forall t: Task | !t.Tomb? ensures TriesFor(p, s', t) {
      assert TriesFor(p, s, t);
      MainCounts(p, s, a, t);
    }
    forall i | 0 <= i < |s.workers| ensures TriesAt(p, s', s'.workers[i].pc) {
      assert TriesAt(p, s, s.workers[i].pc);
      if s.workers[i].pc.On? { 
        MainEvent(p, s, a, Ended(s.workers[i].pc.task, true));
        MainEvent(p, s, a, Ended(s.workers[i].pc.task, false));
      }
    }
  }
}
