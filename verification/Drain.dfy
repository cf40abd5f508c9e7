/**
 * The drain test of the main thread: what the unfinished counters say, where the
 * tombstones are, and why two separate reads of zero mean that all work is over.
 */
module Drain {
  import opened Statuses
  import opened Attempts
  import opened Protocol
  import opened Counting
  import opened CountingSteps

  function BusyIn(pool: Pool): Worker -> nat {
    (w: Worker) => Bit(w.pool == pool && w.pc.On?)
  }

  /** How many workers of the pool have a task in hand. */
  function InFlight(s: State, pool: Pool): nat { Sum(BusyIn(pool), s.workers) }

  function Items(s: State, pool: Pool): seq<Task> { QueueOf(s, pool).items }

  /** The counter of a queue counts the tasks queued or in flight and all tombstones ever put. */
  ghost predicate Tallied(s: State, pool: Pool) {
    && QueueOf(s, pool).unfinished + Count(Items(s, pool), Tomb)
       == |Items(s, pool)| + InFlight(s, pool) + N(s, TombPut(pool))
    && Count(Items(s, pool), Tomb) <= N(s, TombPut(pool))
  }

  /** No task is queued or in flight in the pool. */
  ghost predicate Quiet(s: State, pool: Pool) {
    (forall t <- Items(s, pool) :: t.Tomb?) && InFlight(s, pool) == 0
  }

  /** The pools that the main thread has put a tombstone for. */
  predicate TombDue(main: MainPc, pool: Pool) {
    match main
    case TombBuild => pool.PushPool?
    case Joining(_) => true
    case HaltBuild => pool.PushPool?
    case _ => false
  }

  predicate NoTombYet(main: MainPc, pool: Pool) {
    match main
    case Launch(_) => true
    case Register(_) => true
    case PollBuild => true
    case PollPush => true
    case TombPush => true
    case TombBuild => pool.BuildPool?
    case _ => false
  }

  predicate Normal(main: MainPc) {
    !main.Flag? && !main.HaltPush? && !main.HaltBuild? && main != Joining(true)
  }

  /** The main thread has read both counters as zero. */
  predicate SeenDrained(main: MainPc) {
    main.TombPush? || main.TombBuild? || main == Joining(false)
  }

  /** How far the main thread has got with starting the workers. */
  ghost predicate Launching(s: State) {
    && (s.main.Launch? ==> s.main.next <= |s.workers|)
    && (s.main.Register? ==> s.main.next < |s.workers|)
    && (s.main.Flag? ==> s.main.registered <= |s.workers|)
    && (s.main.Launch? ==> forall j :: 0 <= j < |s.workers| ==> (s.workers[j].pc.NotStarted? <==> s.main.next <= j))
    && (s.main.Register? ==> forall j :: 0 <= j < |s.workers| ==> (s.workers[j].pc.NotStarted? <==> s.main.next < j))
    && (Normal(s.main) && !s.main.Launch? && !s.main.Register? ==>
          forall j :: 0 <= j < |s.workers| ==> !s.workers[j].pc.NotStarted?)
    && (Normal(s.main) ==> forall j :: 0 <= j < |s.workers| ==> !s.workers[j].stop)
  }

  ghost predicate TombFree(s: State, pool: Pool) {
    && N(s, TombPut(pool)) == 0
    && (forall j :: 0 <= j < |s.workers| && s.workers[j].pool == pool ==> !s.workers[j].pc.Reput?)
  }

  /** What the position of the main thread says about the pools. */
  ghost predicate PollSound(s: State) {
    && (forall pool: Pool :: NoTombYet(s.main, pool) ==> TombFree(s, pool))
    && (s.main.PollPush? || SeenDrained(s.main) ==> Quiet(s, BuildPool))
    && (SeenDrained(s.main) ==> Quiet(s, PushPool))
  }

  // ---------------------------------------------------------------- counters

  lemma InFlightMoves(s: State, s': State, w: nat, pool: Pool)
    requires w < |s.workers| == |s'.workers| && s'.workers == s.workers[w := s'.workers[w]]
    ensures InFlight(s', pool) + Bit(s.workers[w].pool == pool && s.workers[w].pc.On?)
         == InFlight(s, pool) + Bit(s'.workers[w].pool == pool && s'.workers[w].pc.On?)
  {
    SumUpdate(BusyIn(pool), s.workers, w, s'.workers[w]);
  }

  lemma OneLogged(s: State, s': State, e: Event, f: Event)
    requires s'.log == s.log + [e]
    ensures N(s', f) == N(s, f) + Bit(e == f)
  {
    CountSnoc(s.log, e, f);
  }

  lemma TalliedEnqueue(s: State, to: Pool, t: Task, pool: Pool)
    requires Tallied(s, pool)
    ensures Tallied(Enqueue(s, to, t), pool)
  {
    hide Count, Sum, InFlight, N;
    OneLogged(s, Enqueue(s, to, t), PutEvent(to, t), TombPut(pool));
    CountSnoc(Items(s, to), t, Tomb);
    InFlightSame(s, Enqueue(s, to, t), pool);
  }

  lemma TalliedGoto(s: State, w: nat, pc: Pc, pool: Pool)
    requires Tallied(s, pool) && w < |s.workers| && (pc.On? <==> s.workers[w].pc.On?)
    ensures Tallied(Goto(s, w, pc), pool)
  {
    InFlightMoves(s, Goto(s, w, pc), w, pool);
    hide Count, Sum;
  }

  lemma TalliedLog(s: State, e: Event, pool: Pool)
    requires Tallied(s, pool) && !e.TombPut?
    ensures Tallied(Log(s, e), pool)
  {
    OneLogged(s, Log(s, e), e, TombPut(pool));
    assert InFlight(Log(s, e), pool) == InFlight(s, pool);
    hide Count, Sum;
  }

  lemma TalliedGet(p: Plan, s: State, w: nat, o: Oracle, pool: Pool)
    requires CanStep(s, w) && s.workers[w].pc.Waiting? && Tallied(s, pool)
    ensures Tallied(WorkerStep(p, s, w, o), pool)
  {
    InFlightMoves(s, WorkerStep(p, s, w, o), w, pool);
    CountHead(Items(s, s.workers[w].pool), Tomb);
    hide Count, Sum;
  }

  lemma TalliedClose(p: Plan, s: State, w: nat, o: Oracle, pool: Pool)
    requires CanStep(s, w) && s.workers[w].pc.On? && s.workers[w].pc.phase.Closing? && Tallied(s, pool)
    ensures Tallied(WorkerStep(p, s, w, o), pool)
  {
    var me := s.workers[w];
    var s' := WorkerStep(p, s, w, o);
    assert s' == Goto(Log(SetQueue(s, me.pool, QueueOf(s, me.pool).(unfinished := QueueOf(s, me.pool).unfinished - 1)), Closed(me.pc.task)), w, Idle);
    hide WorkerStep, TaskStep;
    InFlightMoves(s, s', w, pool);
    OneLogged(s, s', Closed(me.pc.task), TombPut(pool));
    hide Count, Sum, N, InFlight;
  }

  lemma TalliedTask(p: Plan, s: State, w: nat, o: Oracle, pool: Pool)
    requires CanStep(s, w) && s.workers[w].pc.On? && !s.workers[w].pc.phase.Closing? && Tallied(s, pool)
    ensures Tallied(WorkerStep(p, s, w, o), pool)
  {
    hide Tallied, TaskStep, WorkerStep;
    var t, ph := s.workers[w].pc.task, s.workers[w].pc.phase;
    if (ph.Began? && t.Transfer?) || (ph.Putting? && ph.rest != []) {
      TalliedPut(p, s, w, o, pool);
    } else if ph.Writing? {
      TalliedWriting(p, s, w, o, pool);
    } else if ph.Tried? {
      TalliedTried(p, s, w, o, pool);
    } else {
      TalliedPlain(p, s, w, o, pool);
    }
  }

  lemma TalliedPut(p: Plan, s: State, w: nat, o: Oracle, pool: Pool)
    requires CanStep(s, w) && s.workers[w].pc.On? && Tallied(s, pool)
    requires var t, ph := s.workers[w].pc.task, s.workers[w].pc.phase;
      (ph.Began? && t.Transfer?) || (ph.Putting? && ph.rest != [])
    ensures Tallied(WorkerStep(p, s, w, o), pool)
  {
    hide Tallied, BuildAttempt, Children, Succeeds;
    var me := s.workers[w];
    var to, u := if me.pc.phase.Began? then PushPool else me.pool,
                 if me.pc.phase.Began? then Push(me.pc.task.id) else me.pc.phase.rest[0];
    TalliedEnqueue(s, to, u, pool);
    TalliedGoto(Enqueue(s, to, u), w, WorkerStep(p, s, w, o).workers[w].pc, pool);
  }

  lemma TalliedTried(p: Plan, s: State, w: nat, o: Oracle, pool: Pool)
    requires CanStep(s, w) && s.workers[w].pc.On? && s.workers[w].pc.phase.Tried? && Tallied(s, pool)
    ensures Tallied(WorkerStep(p, s, w, o), pool)
  {
    hide Tallied, BuildAttempt, Children, Succeeds, FirstFollowups;
    var me := s.workers[w];
    var ok := me.pc.phase.success;
    var e := if ok && !me.stop then Expanded(me.pc.task) else GaveUp(me.pc.task, ok);
    TalliedLog(s, e, pool);
    TalliedGoto(Log(s, e), w, WorkerStep(p, s, w, o).workers[w].pc, pool);
  }

  lemma TalliedPlain(p: Plan, s: State, w: nat, o: Oracle, pool: Pool)
    requires CanStep(s, w) && s.workers[w].pc.On? && Tallied(s, pool)
    requires var t, ph := s.workers[w].pc.task, s.workers[w].pc.phase;
      !ph.Closing? && !ph.Writing? && !ph.Tried? && !(ph.Began? && t.Transfer?) && !(ph.Putting? && ph.rest != [])
    ensures Tallied(WorkerStep(p, s, w, o), pool)
  {
    hide Tallied, BuildAttempt, Children, Succeeds, Written;
    TalliedGoto(s, w, WorkerStep(p, s, w, o).workers[w].pc, pool);
  }

  lemma TalliedWriting(p: Plan, s: State, w: nat, o: Oracle, pool: Pool)
    requires CanStep(s, w) && s.workers[w].pc.On? && s.workers[w].pc.phase.Writing? && Tallied(s, pool)
    ensures Tallied(WorkerStep(p, s, w, o), pool)
  {
    var me := s.workers[w];
    var t, ph := me.pc.task, me.pc.phase;
    var pc' := WorkerStep(p, s, w, o).workers[w].pc;
    if ph.writes != [] && !t.Tomb? {
      var mid := s.(status := Written(s.status, t.id, ph.writes[0]));
      assert Tallied(mid, pool);
      TalliedLog(mid, Wrote(t, ph.writes[0]), pool);
      TalliedGoto(Log(mid, Wrote(t, ph.writes[0])), w, pc', pool);
    } else {
      var e := Ended(t, !ph.raises && Succeeds(t, s.status));
      TalliedLog(s, e, pool);
      TalliedGoto(Log(s, e), w, pc', pool);
    }
    hide Tallied;
  }

  lemma TalliedWork(p: Plan, s: State, w: nat, o: Oracle, pool: Pool)
    requires CanStep(s, w) && Tallied(s, pool)
    ensures Tallied(WorkerStep(p, s, w, o), pool)
  {
    match s.workers[w].pc {
      case Waiting => TalliedGet(p, s, w, o, pool);
      case Reput =>
        TalliedEnqueue(s, s.workers[w].pool, Tomb, pool);
        TalliedGoto(Enqueue(s, s.workers[w].pool, Tomb), w, Stopped, pool);
      case On(t, ph) => if ph.Closing? { TalliedClose(p, s, w, o, pool); } else { TalliedTask(p, s, w, o, pool); }
      case Idle => TalliedGoto(s, w, if s.workers[w].stop then Stopped else Waiting, pool);
    }
    hide TaskStep, Tallied;
  }

  lemma InFlightSame(s: State, s': State, pool: Pool)
    requires |s.workers| == |s'.workers|
    requires forall i :: 0 <= i < |s.workers| ==>
      s'.workers[i].pool == s.workers[i].pool && (s'.workers[i].pc.On? <==> s.workers[i].pc.On?)
    ensures InFlight(s', pool) == InFlight(s, pool)
  {
    SumSame(BusyIn(pool), s.workers, s'.workers);
  }

  lemma {:induction false} SumSame(f: Worker -> nat, ws: seq<Worker>, us: seq<Worker>)
    requires |ws| == |us| && forall i :: 0 <= i < |ws| ==> f(ws[i]) == f(us[i])
    ensures Sum(f, ws) == Sum(f, us)
  {
    if ws != [] {
      SumSame(f, ws[..|ws| - 1], us[..|us| - 1]);
    }
  }

  predicate PutsTomb(m: MainPc) { m.TombPush? || m.HaltPush? || m.TombBuild? || m.HaltBuild? }

  lemma TalliedFrame(s: State, s': State, pool: Pool)
    requires Tallied(s, pool)
    requires s'.workers == s.workers && s'.log == s.log && s'.build == s.build && s'.push == s.push
    ensures Tallied(s', pool)
  {
    hide Sum, Count;
  }

  lemma TalliedTomb(s: State, pool: Pool)
    requires Enabled(s, Main) && PutsTomb(s.main) && Tallied(s, pool)
    ensures Tallied(MainStep(s), pool)
  {
    var to := if s.main.TombPush? || s.main.HaltPush? then PushPool else BuildPool;
    hide Tallied;
    TalliedEnqueue(s, to, Tomb, pool);
    TalliedFrame(Enqueue(s, to, Tomb), MainStep(s), pool);
  }

  lemma TalliedMain(p: Plan, s: State, a: Action, pool: Pool)
    requires Enabled(s, a) && !a.Work? && Tallied(s, pool)
    requires s.main.Launch? && s.main.next < |s.workers| ==> s.workers[s.main.next].pc.NotStarted?
    ensures Tallied(Step(p, s, a), pool)
  {
    if a.Main? && PutsTomb(s.main) {
      TalliedTomb(s, pool);
      hide MainStep, Tallied;
    } else {
      var s' := Step(p, s, a);
      assert s'.log == s.log && s'.build == s.build && s'.push == s.push;
      InFlightSame(s, s', pool);
      hide Enqueue, Sum, Count, MainStep, Step;
    }
  }

  // ---------------------------------------------------------------- quiet pools

  /** A counter of zero means that its pool is quiet, as long as no tombstone was put. */
  lemma ZeroIsQuiet(s: State, pool: Pool)
    requires Tallied(s, pool) && N(s, TombPut(pool)) == 0 && QueueOf(s, pool).unfinished == 0
    ensures Quiet(s, pool)
  {
    hide Count, Sum;
  }

  lemma QuietIdle(s: State, pool: Pool, w: nat)
    requires Quiet(s, pool) && w < |s.workers| && s.workers[w].pool == pool
    ensures !s.workers[w].pc.On?
  {
    SumHas(BusyIn(pool), s.workers, w);
  }

  /** A quiet build pool stays quiet; so does a quiet push pool once the build pool is quiet. */
  lemma QuietStep(p: Plan, s: State, a: Action)
    requires ValidPlan(p) && Typed(p, s) && Enabled(s, a)
    requires Launching(s) && Quiet(s, BuildPool)
    ensures Quiet(Step(p, s, a), BuildPool)
    ensures Quiet(s, PushPool) ==> Quiet(Step(p, s, a), PushPool)
  {
    hide Count, Sum;
    var s' := Step(p, s, a);
    match a {
      case Work(w, o) =>
        var me := s.workers[w];
        assert WellTyped(p, me);
        WorkerFrame(p, s, w, o);
        InFlightMoves(s, s', w, BuildPool);
        InFlightMoves(s, s', w, PushPool);
        if me.pc.On? {
          QuietWork(p, s, w, o);
        } else {
          QuietLoop(p, s, w, o);
        }
      case _ =>
        InFlightSame(s, s', BuildPool);
        InFlightSame(s, s', PushPool);
    }
  }

  lemma QuietLoop(p: Plan, s: State, w: nat, o: Oracle)
    requires Typed(p, s) && CanStep(s, w) && !s.workers[w].pc.On? && Quiet(s, BuildPool)
    ensures var s' := WorkerStep(p, s, w, o);
      && Quiet(s', BuildPool) && (Quiet(s, PushPool) ==> Quiet(s', PushPool))
  {
    var me := s.workers[w];
    var s' := WorkerStep(p, s, w, o);
    WorkerFrame(p, s, w, o);
    InFlightMoves(s, s', w, BuildPool);
    InFlightMoves(s, s', w, PushPool);
    if me.pc.Waiting? {
      assert Items(s, me.pool)[0] in Items(s, me.pool);
    }
    hide Count, Sum;
  }

  lemma QuietWork(p: Plan, s: State, w: nat, o: Oracle)
    requires Typed(p, s) && CanStep(s, w) && s.workers[w].pc.On? && Quiet(s, BuildPool)
    ensures var s' := WorkerStep(p, s, w, o);
      && Quiet(s', BuildPool) && (Quiet(s, PushPool) ==> Quiet(s', PushPool))
  {
    var me := s.workers[w];
    assert WellTyped(p, me);
    var s' := WorkerStep(p, s, w, o);
    WorkerFrame(p, s, w, o);
    InFlightMoves(s, s', w, BuildPool);
    InFlightMoves(s, s', w, PushPool);
    if me.pool.BuildPool? {
      QuietIdle(s, BuildPool, w);
    } else if Quiet(s, PushPool) {
      QuietIdle(s, PushPool, w);
    }
    hide Count, Sum;
  }

  // ---------------------------------------------------------------- the main thread

  lemma LaunchingStep(p: Plan, s: State, a: Action)
    requires Enabled(s, a) && Launching(s)
    ensures Launching(Step(p, s, a))
  {
    if a.Work? {
      WorkerFrame(p, s, a.w, a.oracle);
      StaysStarted(p, s, a.w, a.oracle);
      hide WorkerStep;
    }
  }

  lemma StaysStarted(p: Plan, s: State, w: nat, o: Oracle)
    requires CanStep(s, w)
    ensures !WorkerStep(p, s, w, o).workers[w].pc.NotStarted?
  {
    if s.workers[w].pc.On? {
      StaysBusy(p, s, w, s.workers[w].pc.task, s.workers[w].pc.phase, o);
    }
    hide TaskStep;
  }

  lemma StaysBusy(p: Plan, s: State, w: nat, t: Task, ph: Phase, o: Oracle)
    requires w < |s.workers| && s.workers[w].pc == On(t, ph)
    ensures !TaskStep(p, s, w, t, ph, o).workers[w].pc.NotStarted?
  {
    hide At, Written, Succeeds, Children, FirstFollowups, BuildAttempt, AfterGuard, Excluded;
  }

  /** A worker step puts no tombstone where none has been put. */
  lemma TombFreeWork(p: Plan, s: State, w: nat, o: Oracle, pool: Pool)
    requires Typed(p, s) && CanStep(s, w) && TombFree(s, pool) && Tallied(s, pool)
    ensures TombFree(WorkerStep(p, s, w, o), pool)
  {
    hide Count, Sum, InFlight;
    var me := s.workers[w];
    assert WellTyped(p, me);
    var s' := WorkerStep(p, s, w, o);
    WorkerFrame(p, s, w, o);
    if me.pc.Waiting? {
      CountIn(Items(s, me.pool), Tomb);
      assert Items(s, me.pool)[0] in Items(s, me.pool);
    } else if s'.log != s.log {
      WorkerLogs(p, s, w, o);
      OneLogged(s, s', s'.log[|s.log|], TombPut(pool));
    }
  }

  /** What a worker step adds to the log. */
  lemma WorkerLogs(p: Plan, s: State, w: nat, o: Oracle)
    requires CanStep(s, w) && WellTyped(p, s.workers[w])
    ensures var s' := WorkerStep(p, s, w, o);
      && (s'.log == s.log || (|s'.log| == |s.log| + 1 && s'.log == s.log + [s'.log[|s.log|]]))
      && (s'.log != s.log && s'.log[|s.log|].TombPut? ==>
            s.workers[w].pc.Reput? && s'.log[|s.log|] == TombPut(s.workers[w].pool))
  {
    var me := s.workers[w];
    if me.pc.On? && me.pc.phase.Putting? && me.pc.phase.rest != [] {
      assert FollowupOf(p, me.pool, me.pc.phase.rest[0]);
    }
  }

  lemma PollSoundStep(p: Plan, s: State, a: Action)
    requires ValidPlan(p) && Typed(p, s) && Enabled(s, a) && Launching(s) && PollSound(s)
    requires Tallied(s, BuildPool) && Tallied(s, PushPool)
    ensures PollSound(Step(p, s, a))
  {
    hide Typed, ValidPlan, Tallied;
    if Quiet(s, BuildPool) { QuietStep(p, s, a); }
    match a {
      case Work(w, o) =>
        PollSoundWork(p, s, w, o);
      case Main =>
        PollSoundMain(p, s);
      case Interrupt =>
        hide Quiet, TombFree;
        assert forall pool: Pool :: TombFree(s, pool) ==> TombFree(Step(p, s, a), pool);
    }
  }

  lemma PollSoundWork(p: Plan, s: State, w: nat, o: Oracle)
    requires Typed(p, s) && CanStep(s, w) && Launching(s) && PollSound(s)
    requires Tallied(s, BuildPool) && Tallied(s, PushPool)
    requires Quiet(s, BuildPool) ==> Quiet(WorkerStep(p, s, w, o), BuildPool)
    requires Quiet(s, BuildPool) && Quiet(s, PushPool) ==> Quiet(WorkerStep(p, s, w, o), PushPool)
    ensures PollSound(WorkerStep(p, s, w, o))
  {
    hide WorkerStep, Quiet, TombFree, Launching, Tallied, Typed;
    WorkerFrame(p, s, w, o);
    assert forall pool: Pool :: Tallied(s, pool) by {
      forall pool: Pool ensures Tallied(s, pool) { assert pool == BuildPool || pool == PushPool; }
    }
    forall pool: Pool | TombFree(s, pool) ensures TombFree(WorkerStep(p, s, w, o), pool) { TombFreeWork(p, s, w, o, pool); }
  }

  lemma PollSoundMain(p: Plan, s: State)
    requires Enabled(s, Main) && Launching(s) && PollSound(s)
    requires Tallied(s, BuildPool) && Tallied(s, PushPool)
    requires Quiet(s, BuildPool) ==> Quiet(MainStep(s), BuildPool)
    requires Quiet(s, BuildPool) && Quiet(s, PushPool) ==> Quiet(MainStep(s), PushPool)
    ensures PollSound(MainStep(s))
  {
    hide Sum, Count, Launching;
    if s.main.PollBuild? && s.build.unfinished == 0 {
      assert TombFree(s, BuildPool);
      ZeroIsQuiet(s, BuildPool);
    } else if s.main.PollPush? && s.push.unfinished == 0 {
      assert TombFree(s, PushPool);
      ZeroIsQuiet(s, PushPool);
    }
    TombFreeMain(p, s);
  }

  lemma TombFreeMain(p: Plan, s: State)
    requires Enabled(s, Main) && Launching(s)
    ensures forall pool: Pool :: TombFree(s, pool) && NoTombYet(MainStep(s).main, pool) ==> TombFree(MainStep(s), pool)
  {
    var s' := MainStep(s);
    if s.main.TombPush? {
      OneLogged(s, s', TombPut(PushPool), TombPut(BuildPool));
    }
    hide Count, Sum;
  }

  // ---------------------------------------------------------------- what the main thread leaves alone

  /** The main thread changes no role, logs nothing about tasks and moves no task. */
  lemma MainFrame(p: Plan, s: State, a: Action)
    requires Enabled(s, a) && !a.Work? && Launching(s)
    ensures var s' := Step(p, s, a);
      && |s'.workers| == |s.workers| && s'.status == s.status
      && (forall i :: 0 <= i < |s.workers| ==>
            && s'.workers[i].pool == s.workers[i].pool
            && (s'.workers[i].pc == s.workers[i].pc || (s.workers[i].pc.NotStarted? && s'.workers[i].pc.Idle?)))
      && (s'.log == s.log || exists pool :: s'.log == s.log + [TombPut(pool)])
      && (forall pool :: Items(s', pool) == Items(s, pool) || Items(s', pool) == Items(s, pool) + [Tomb])
  {
  }

  lemma MainRole(p: Plan, s: State, a: Action, r: Role, t: Task)
    requires Enabled(s, a) && !a.Work? && Launching(s)
    ensures G(p, Step(p, s, a), r, t) == G(p, s, r, t)
  {
    MainFrame(p, s, a);
    SumSame(RoleOf(p, r, t), s.workers, Step(p, s, a).workers);
  }

  lemma MainEvent(p: Plan, s: State, a: Action, e: Event)
    requires Enabled(s, a) && !a.Work? && Launching(s) && !e.TombPut?
    ensures N(Step(p, s, a), e) == N(s, e)
  {
    var s' := Step(p, s, a);
    MainFrame(p, s, a);
    if s'.log != s.log {
      var pool :| s'.log == s.log + [TombPut(pool)];
      CountSnoc(s.log, TombPut(pool), e);
    }
  }

  lemma MainQueues(p: Plan, s: State, a: Action, t: Task)
    requires Enabled(s, a) && !a.Work? && Launching(s) && !t.Tomb?
    ensures InQueues(Step(p, s, a), t) == InQueues(s, t)
  {
    hide *;
    MainQueue(p, s, a, BuildPool, t);
    MainQueue(p, s, a, PushPool, t);
    InQueuesIs(s, t);
    InQueuesIs(Step(p, s, a), t);
  }

  lemma MainQueue(p: Plan, s: State, a: Action, pool: Pool, t: Task)
    requires Enabled(s, a) && !a.Work? && Launching(s) && !t.Tomb?
    ensures Count(Items(Step(p, s, a), pool), t) == Count(Items(s, pool), t)
  {
    hide *;
    MainFrame(p, s, a);
    CountSnoc(Items(s, pool), Tomb, t);
  }

  lemma InQueuesIs(s: State, t: Task)
    ensures InQueues(s, t) == Count(Items(s, BuildPool), t) + Count(Items(s, PushPool), t)
  {
    hide Count;
  }

  lemma MainCounts(p: Plan, s: State, a: Action, t: Task)
    requires Enabled(s, a) && !a.Work? && Launching(s) && !t.Tomb?
    ensures var s' := Step(p, s, a);
      && G(p, s', Early, t) == G(p, s, Early, t) && G(p, s', Late, t) == G(p, s, Late, t)
      && G(p, s', Pending, t) == G(p, s, Pending, t) && G(p, s', Mid, t) == G(p, s, Mid, t)
      && G(p, s', Won, t) == G(p, s, Won, t)
      && InQueues(s', t) == InQueues(s, t)
      && N(s', Queued(t)) == N(s, Queued(t)) && N(s', Closed(t)) == N(s, Closed(t))
      && N(s', Expanded(t)) == N(s, Expanded(t))
      && N(s', GaveUp(t, true)) == N(s, GaveUp(t, true)) && N(s', GaveUp(t, false)) == N(s, GaveUp(t, false))
      && N(s', Ended(t, true)) == N(s, Ended(t, true)) && N(s', Ended(t, false)) == N(s, Ended(t, false))
  {
    hide *;
    MainRole(p, s, a, Early, t);
    MainRole(p, s, a, Late, t);
    MainRole(p, s, a, Pending, t);
    MainRole(p, s, a, Mid, t);
    MainRole(p, s, a, Won, t);
    MainQueues(p, s, a, t);
    MainEvent(p, s, a, Queued(t));
    MainEvent(p, s, a, Closed(t));
    MainEvent(p, s, a, Expanded(t));
    MainEvent(p, s, a, GaveUp(t, true));
    MainEvent(p, s, a, GaveUp(t, false));
    MainEvent(p, s, a, Ended(t, true));
    MainEvent(p, s, a, Ended(t, false));
  }

  lemma MainDue(p: Plan, s: State, a: Action, t: Task)
    requires Enabled(s, a) && !a.Work? && Launching(s) && !t.Tomb?
    ensures Due(p, Step(p, s, a), t) == Due(p, s, t)
  {
    match t {
      case Build(x) => if Parent(p, x).Some? { MainEvent(p, s, a, Expanded(Build(Parent(p, x).value))); }
      case Transfer(x) => MainEvent(p, s, a, Expanded(Build(x)));
      case Push(x) =>
        MainEvent(p, s, a, Ended(Transfer(x), true));
        MainRole(p, s, a, Mid, Transfer(x));
    }
    hide Step, G, N;
  }

  lemma CountedMain(p: Plan, s: State, a: Action)
    requires Enabled(s, a) && !a.Work? && Launching(s) && Counted(p, s)
    ensures Counted(p, Step(p, s, a))
  {
    hide CountedFor, Step, Enabled, Launching;
    forall t: Task | !t.Tomb? ensures CountedFor(p, Step(p, s, a), t) {
      CountedMainFor(p, s, a, t);
    }
  }

  lemma CountedMainFor(p: Plan, s: State, a: Action, t: Task)
    requires Enabled(s, a) && !a.Work? && Launching(s) && Counted(p, s) && !t.Tomb?
    ensures CountedFor(p, Step(p, s, a), t)
  {
    hide Step, G, N, InQueues, Due, Enabled, Launching;
    assert CountedFor(p, s, t);
    MainCounts(p, s, a, t);
    MainDue(p, s, a, t);
  }
}
