/** How the status of an image follows from what has happened to its tasks. */
module StatusFacts {
  import opened Statuses
  import opened Attempts
  import opened Protocol
  import opened Counting
  import opened CountingSteps
  import opened Drain
  import opened StatusHistory

  /** Whether the build task of `x` has left its attempt loop successfully. */
  ghost predicate BuildWon(s: State, x: Id) {
    N(s, Expanded(Build(x))) + N(s, GaveUp(Build(x), true)) > 0
  }

  ghost predicate Facts(p: Plan, s: State, x: Id) {
    var v := At(s.status, x);
    // an image whose build task was never taken still has the status that filtering gave it
    && (Taken(p, s, Build(x)) == 0 ==> v == At(p.filtered, x))
    // between a successful build and the push task the image is built
    && (BuildWon(s, x) && N(s, Queued(Push(x))) == 0 ==> v.Built?)
    && (N(s, GaveUp(Build(x), false)) > 0 ==> !v.Built?)
    // with a push task, the last push attempt decides
    && (N(s, Queued(Push(x))) > 0 && G(p, s, Mid, Push(x)) == 0 ==> (v.Built? <==> LastTry(s.log, Push(x)) != Some(false)))
    && (N(s, Expanded(Build(x))) > 0 ==> v.Built? || v.ConnectionError? || v.PushError?)
    && (N(s, Expanded(Build(x))) > 0 && !v.Built? ==> PushFailed(s.log, x))
    && (N(s, Expanded(Build(x))) > 0 ==> Wrote(Build(x), Built) in s.log)
    && (v.Built? ==> Wrote(Build(x), Built) in s.log)
    && (v.ParentError? ==> Wrote(Build(x), ParentError) in s.log)
  }

  /** What a worker in the attempt loop knows about the status of its image. */
  predicate Honest(p: Plan, s: State, pc: Pc) {
    pc.On? && !pc.task.Tomb? ==>
      var v := At(s.status, pc.task.id);
      match pc.phase
      case Writing(_, ws, r) =>
        && (r ==> !Final(v, ws).Built?)
        && (ParentError in ws ==> Parent(p, pc.task.id).Some? && PushFailed(s.log, Parent(p, pc.task.id).value))
      case Tried(ok) => (ok && !pc.task.Transfer? ==> v.Built?) && (pc.task.Build? && !ok ==> !v.Built?)
      case Collecting(_, _) => true
      case Putting(_) => true
      case Closing => true
      case _ => pc.task.Build? ==> !v.Built?
  }

  ghost predicate StatusSound(p: Plan, s: State) {
    && (forall x :: 0 <= x < |p.parent| ==> Facts(p, s, x))
    && (forall i :: 0 <= i < |s.workers| ==> Honest(p, s, s.workers[i].pc))
  }

  /** While a build task is undecided, nothing later has happened to its image. */
  lemma Undecided(p: Plan, s: State, w: nat)
    requires Counted(p, s) && w < |s.workers| && s.workers[w].pc.On?
    requires s.workers[w].pc.task.Build? && !Decided(s.workers[w].pc.phase)
    ensures var x := s.workers[w].pc.task.id;
      && N(s, Expanded(Build(x))) == 0 && !BuildWon(s, x) && N(s, GaveUp(Build(x), false)) == 0
      && N(s, Queued(Push(x))) == 0 && N(s, Queued(Transfer(x))) == 0 && Taken(p, s, Build(x)) > 0
  {
    var t := s.workers[w].pc.task;
    HeldOnce(p, s, w);
    assert CountedFor(p, s, t) && CountedFor(p, s, Transfer(t.id)) && CountedFor(p, s, Push(t.id));
    MidAndWonAreEarly(p, s, Transfer(t.id));
    hide Sum, Count, G, N;
  }

  /** While an image is transferred or pushed, its build is a success of the past. */
  lemma AfterBuild(p: Plan, s: State, t: Task)
    requires Counted(p, s) && (t.Transfer? || t.Push?) && N(s, Queued(t)) > 0
    ensures N(s, Expanded(Build(t.id))) == 1 && BuildWon(s, t.id)
    ensures N(s, GaveUp(Build(t.id), true)) == N(s, GaveUp(Build(t.id), false)) == 0
    ensures Taken(p, s, Build(t.id)) > 0 && G(p, s, Early, Build(t.id)) == 0
  {
    assert CountedFor(p, s, t);
    QueuedEligible(p, s, t);
    assert CountedFor(p, s, Build(t.id));
    hide Sum, Count, G, N, Due;
  }

  /** Two workers that may both write the status of one image are the same. */
  lemma SoleWriter(p: Plan, s: State, i: nat, j: nat)
    requires Counted(p, s) && i < |s.workers| && j < |s.workers|
    requires s.workers[i].pc.On? && s.workers[j].pc.On? && !Decided(s.workers[i].pc.phase) && !Decided(s.workers[j].pc.phase)
    requires s.workers[j].pc.task.Build? || s.workers[j].pc.task.Push?
    requires s.workers[i].pc.task in {Build(s.workers[j].pc.task.id), Push(s.workers[j].pc.task.id)}
    ensures i == j
  {
    var t, u := s.workers[i].pc.task, s.workers[j].pc.task;
    if t == u {
      SoleHolder(p, s, i, j);
    } else if t.Build? {
      Undecided(p, s, i);
      HeldOnce(p, s, j);
    } else {
      Undecided(p, s, j);
      HeldOnce(p, s, i);
    }
    hide Counted, N;
  }

  // ---------------------------------------------------------------- steps

  /** Log and status of an image that a step does not concern. */
  ghost predicate SameFor(p: Plan, s: State, s': State, x: Id) {
    && At(s'.status, x) == At(s.status, x)
    && (Taken(p, s', Build(x)) == 0 ==> Taken(p, s, Build(x)) == 0)
    && N(s', Expanded(Build(x))) == N(s, Expanded(Build(x)))
    && N(s', GaveUp(Build(x), true)) == N(s, GaveUp(Build(x), true))
    && N(s', GaveUp(Build(x), false)) == N(s, GaveUp(Build(x), false))
    && N(s', Queued(Push(x))) == N(s, Queued(Push(x)))
    && G(p, s', Mid, Push(x)) == G(p, s, Mid, Push(x))
    && LastTry(s'.log, Push(x)) == LastTry(s.log, Push(x))
    && s.log <= s'.log
  }

  lemma SameFacts(p: Plan, s: State, s': State, x: Id)
    requires Facts(p, s, x) && SameFor(p, s, s', x)
    ensures Facts(p, s', x)
  {
    hide Taken, N, G, LastTry;
    assert forall e :: e in s.log ==> e in s'.log;
  }

  lemma FactsLoop(p: Plan, s: State, w: nat, o: Oracle, x: Id)
    requires CanStep(s, w) && WellTyped(p, s.workers[w]) && !s.workers[w].pc.On? && Facts(p, s, x)
    ensures Facts(p, WorkerStep(p, s, w, o), x)
  {
    hide WorkerStep, Facts, N, G, Taken, WellTyped;
    LoopFrame(p, s, w, o, Build(x));
    LoopFrame(p, s, w, o, Push(x));
    WorkerLogs(p, s, w, o);
    SameFacts(p, s, WorkerStep(p, s, w, o), x);
  }

  /** A busy worker that does not write changes no status. */
  lemma StatusFrame(p: Plan, s: State, w: nat, o: Oracle, x: Id)
    requires CanStep(s, w) && s.workers[w].pc.On? && !s.workers[w].pc.task.Tomb?
    requires x != s.workers[w].pc.task.id || !s.workers[w].pc.phase.Writing? || s.workers[w].pc.phase.writes == []
    ensures At(WorkerStep(p, s, w, o).status, x) == At(s.status, x)
  {
  }

  lemma QueuedPushFrame(p: Plan, s: State, w: nat, o: Oracle, x: Id)
    requires CanStep(s, w) && WellTyped(p, s.workers[w]) && s.workers[w].pc.On?
    requires s.workers[w].pc.task != Transfer(x) || !s.workers[w].pc.phase.Began?
    ensures N(WorkerStep(p, s, w, o), Queued(Push(x))) == N(s, Queued(Push(x)))
  {
    var me := s.workers[w];
    var s' := WorkerStep(p, s, w, o);
    WorkerLogs(p, s, w, o);
    if me.pc.phase.Putting? && me.pc.phase.rest != [] {
      assert FollowupOf(p, me.pool, me.pc.phase.rest[0]);
    }
    if s'.log != s.log {
      CountSnoc(s.log, s'.log[|s.log|], Queued(Push(x)));
    }
    hide Count;
  }

  lemma FactsElsewhere(p: Plan, s: State, w: nat, o: Oracle, x: Id)
    requires CanStep(s, w) && WellTyped(p, s.workers[w]) && s.workers[w].pc.On? && Facts(p, s, x)
    requires s.workers[w].pc.task.id != x
    ensures Facts(p, WorkerStep(p, s, w, o), x)
  {
    Elsewhere(p, s, w, o, Build(x));
    Elsewhere(p, s, w, o, Push(x));
    StatusFrame(p, s, w, o, x);
    QueuedPushFrame(p, s, w, o, x);
    WorkerLogs(p, s, w, o);
    hide WorkerStep, Facts, N, G, Taken;
    SameFacts(p, s, WorkerStep(p, s, w, o), x);
  }

  ghost predicate FactsPre(p: Plan, s: State, w: nat) {
    && ValidPlan(p) && Typed(p, s) && Counted(p, s) && ExclusionKept(p, s) && TriesSound(p, s) && StatusSound(p, s)
    && CanStep(s, w) && s.workers[w].pc.On?
  }

  lemma PreFacts(p: Plan, s: State, w: nat)
    requires FactsPre(p, s, w)
    ensures ValidPlan(p) && Counted(p, s) && ExclusionKept(p, s) && TriesSound(p, s) && StatusSound(p, s)
    ensures w < |s.workers| && CanStep(s, w) && s.workers[w].pc.On? && WellTyped(p, s.workers[w]) && Honest(p, s, s.workers[w].pc)
    ensures !s.workers[w].pc.task.Tomb? && s.workers[w].pc.task.id < |p.parent| && Facts(p, s, s.workers[w].pc.task.id)
  {
    assert WellTyped(p, s.workers[w]);
    hide Counted, TriesSound, ExclusionKept, Facts, TypedPhase, ValidPlan, Honest;
  }

  /** The first push attempt is still to come when the push task is queued. */
  lemma NoTryYet(p: Plan, s: State, x: Id)
    requires Counted(p, s) && TriesSound(p, s) && N(s, Queued(Push(x))) == 0
    ensures LastTry(s.log, Push(x)) == None && G(p, s, Mid, Push(x)) == 0
  {
    assert CountedFor(p, s, Push(x)) && TriesFor(p, s, Push(x));
    MidAndWonAreEarly(p, s, Push(x));
    LastTryNone(s.log, Push(x));
    hide Sum, Count, LastTry;
  }

  /** The image of a worker that transfers. */
  lemma FactsTransfer(p: Plan, s: State, w: nat, o: Oracle)
    requires FactsPre(p, s, w) && s.workers[w].pc.task.Transfer?
    ensures Facts(p, WorkerStep(p, s, w, o), s.workers[w].pc.task.id)
  {
    hide N, G, Taken, LastTry, Facts, Counted, TriesSound, ValidPlan, ExclusionKept, StatusSound, WorkerStep, FactsPre;
    PreFacts(p, s, w);
    var x := s.workers[w].pc.task.id;
    if s.workers[w].pc.phase.Began? {
      FactsQueuing(p, s, w, o);
    } else {
      Elsewhere(p, s, w, o, Build(x));
      Elsewhere(p, s, w, o, Push(x));
      StatusFrame(p, s, w, o, x);
      WorkerLogs(p, s, w, o);
      QueuedPushFrame(p, s, w, o, x);
      SameFacts(p, s, WorkerStep(p, s, w, o), x);
    }
  }

  /** A transfer begins, that is, it may queue the push task. */
  lemma FactsQueuing(p: Plan, s: State, w: nat, o: Oracle)
    requires FactsPre(p, s, w) && s.workers[w].pc.task.Transfer? && s.workers[w].pc.phase.Began?
    ensures Facts(p, WorkerStep(p, s, w, o), s.workers[w].pc.task.id)
  {
    hide N, G, Taken, LastTry, Counted, TriesSound, ValidPlan, ExclusionKept, StatusSound, WorkerStep, FactsPre, PushFailed;
    PreFacts(p, s, w);
    var x := s.workers[w].pc.task.id;
    HeldOnce(p, s, w);
    AfterBuild(p, s, Transfer(x));
    Elsewhere(p, s, w, o, Build(x));
    Elsewhere(p, s, w, o, Push(x));
    StatusFrame(p, s, w, o, x);
    WorkerLogs(p, s, w, o);
    NotYetPushed(p, s, w);
    NoneDueNone(p, s, Push(x));
    NoTryYet(p, s, x);
  }

  lemma NoneDueNone(p: Plan, s: State, t: Task)
    requires Counted(p, s) && !t.Tomb? && Due(p, s, t) == 0
    ensures N(s, Queued(t)) == 0
  {
    assert CountedFor(p, s, t);
    hide Sum, Count, G, N, Due;
  }

  /** The image of a worker that builds, before the outcome is decided. */
  lemma FactsBuilding(p: Plan, s: State, w: nat, o: Oracle)
    requires FactsPre(p, s, w) && s.workers[w].pc.task.Build?
    requires !Decided(s.workers[w].pc.phase) && !s.workers[w].pc.phase.Tried?
    ensures Facts(p, WorkerStep(p, s, w, o), s.workers[w].pc.task.id)
  {
    hide N, G, Taken, LastTry, Counted, TriesSound, ValidPlan, ExclusionKept, StatusSound, WorkerStep, FactsPre, PushFailed,
      WellTyped;
    PreFacts(p, s, w);
    var x := s.workers[w].pc.task.id;
    Undecided(p, s, w);
    OwnTaken(p, s, w, o);
    QueuedPushFrame(p, s, w, o, x);
    BuildLog(p, s, w, o);
    StatusIsLogged(p, s, w, o);
    assert forall e :: e in s.log ==> e in WorkerStep(p, s, w, o).log;
  }

  /** A status that a step changes is logged. */
  lemma StatusIsLogged(p: Plan, s: State, w: nat, o: Oracle)
    requires CanStep(s, w) && s.workers[w].pc.On? && s.workers[w].pc.task.Build?
    ensures var s', t := WorkerStep(p, s, w, o), s.workers[w].pc.task;
      At(s'.status, t.id) == At(s.status, t.id) || Wrote(t, At(s'.status, t.id)) in s'.log
  {
    hide BuildAttempt, Children, FirstFollowups;
  }

  /** The image of a worker whose build is over. */
  lemma FactsBuilt(p: Plan, s: State, w: nat, o: Oracle)
    requires FactsPre(p, s, w) && s.workers[w].pc.task.Build?
    requires Decided(s.workers[w].pc.phase)
    ensures Facts(p, WorkerStep(p, s, w, o), s.workers[w].pc.task.id)
  {
    hide N, G, Taken, LastTry, Facts, Counted, TriesSound, ValidPlan, ExclusionKept, Decided, WorkerStep;
    var me := s.workers[w];
    var x := me.pc.task.id;
    assert WellTyped(p, me) && Facts(p, s, x);
    hide FactsPre, Typed, StatusSound;
    OwnTaken(p, s, w, o);
    DecidedIsBusy(me.pc.phase);
    QueuedPushFrame(p, s, w, o, x);
    Elsewhere(p, s, w, o, Push(x));
    StatusFrame(p, s, w, o, x);
    BuildLog(p, s, w, o);
    SameFacts(p, s, WorkerStep(p, s, w, o), x);
  }

  lemma DecidedIsBusy(ph: Phase)
    requires Decided(ph)
    ensures !ph.Writing? && !ph.Began? && !ph.Tried?
  {
  }

  /** Outside the moment in which the build is decided a worker logs nothing that counts for its image. */
  lemma BuildLog(p: Plan, s: State, w: nat, o: Oracle)
    requires CanStep(s, w) && WellTyped(p, s.workers[w]) && s.workers[w].pc.On? && s.workers[w].pc.task.Build?
    requires !s.workers[w].pc.phase.Tried?
    ensures var s', t := WorkerStep(p, s, w, o), s.workers[w].pc.task;
      && N(s', Expanded(t)) == N(s, Expanded(t))
      && N(s', GaveUp(t, true)) == N(s, GaveUp(t, true)) && N(s', GaveUp(t, false)) == N(s, GaveUp(t, false))
      && s.log <= s'.log
  {
    var t := s.workers[w].pc.task;
    var s' := WorkerStep(p, s, w, o);
    WorkerFrame(p, s, w, o);
    WorkerLogs(p, s, w, o);
    var ev := if s'.log == s.log then [] else [s'.log[|s.log|]];
    LoggedAll(s, s', w, ev, t);
    if ev != [] { CountOneOf(ev, ev[0], t); } else { NotAbout(ev, t); }
    hide N, WellTyped, Count, Moves;
  }

  /** The moment in which a build is decided. */
  lemma FactsDeciding(p: Plan, s: State, w: nat, o: Oracle)
    requires FactsPre(p, s, w) && s.workers[w].pc.task.Build?
    requires s.workers[w].pc.phase.Tried?
    ensures Facts(p, WorkerStep(p, s, w, o), s.workers[w].pc.task.id)
  {
    hide N, G, Taken, LastTry, Counted, TriesSound, ValidPlan, ExclusionKept, StatusSound, WorkerStep, FactsPre, PushFailed,
      WellTyped;
    PreFacts(p, s, w);
    var x := s.workers[w].pc.task.id;
    Undecided(p, s, w);
    OwnTaken(p, s, w, o);
    QueuedPushFrame(p, s, w, o, x);
    StatusFrame(p, s, w, o, x);
    DecidingLog(p, s, w, o);
    assert forall e :: e in s.log ==> e in WorkerStep(p, s, w, o).log;
  }

  lemma DecidingLog(p: Plan, s: State, w: nat, o: Oracle)
    requires CanStep(s, w) && WellTyped(p, s.workers[w]) && s.workers[w].pc.On? && s.workers[w].pc.task.Build?
    requires s.workers[w].pc.phase.Tried?
    ensures var s', t, ok := WorkerStep(p, s, w, o), s.workers[w].pc.task, s.workers[w].pc.phase.success;
      && N(s', Expanded(t)) + N(s', GaveUp(t, true)) <= N(s, Expanded(t)) + N(s, GaveUp(t, true)) + (if ok then 1 else 0)
      && N(s', GaveUp(t, false)) <= N(s, GaveUp(t, false)) + (if ok then 0 else 1)
      && s.log <= s'.log
  {
    var t := s.workers[w].pc.task;
    var s' := WorkerStep(p, s, w, o);
    WorkerFrame(p, s, w, o);
    WorkerLogs(p, s, w, o);
    var ev := if s'.log == s.log then [] else [s'.log[|s.log|]];
    LoggedAll(s, s', w, ev, t);
    CountOneOf(ev, ev[0], t);
    hide N, WellTyped, Count, Moves;
  }

  /** The image of a worker that pushes. */
  lemma FactsPushing(p: Plan, s: State, w: nat, o: Oracle)
    requires FactsPre(p, s, w) && s.workers[w].pc.task.Push?
    ensures Facts(p, WorkerStep(p, s, w, o), s.workers[w].pc.task.id)
  {
    hide N, G, Taken, WellTyped, Count, LastTry, FactsPre, WorkerStep, Counted, TriesSound, ValidPlan, ExclusionKept, StatusSound;
    PreFacts(p, s, w);
    var me := s.workers[w];
    var x := me.pc.task.id;
    var s' := WorkerStep(p, s, w, o);
    HeldOnce(p, s, w);
    AfterBuild(p, s, Push(x));
    Elsewhere(p, s, w, o, Build(x));
    QueuedPushFrame(p, s, w, o, x);
    WorkerFrame(p, s, w, o);
    WorkerLogs(p, s, w, o);
    if me.pc.phase.Writing? {
      if me.pc.phase.writes == [] { PushEnding(p, s, w, o); } else { PushWriting(p, s, w, o); }
    } else {
      StatusFrame(p, s, w, o, x);
      PushMoves(p, s, w, o);
    }
  }

  /** Outside the writes of an attempt a push worker changes neither status nor last result. */
  lemma PushMoves(p: Plan, s: State, w: nat, o: Oracle)
    requires FactsPre(p, s, w) && s.workers[w].pc.task.Push? && !s.workers[w].pc.phase.Writing?
    ensures var s' := WorkerStep(p, s, w, o);
      && LastTry(s'.log, s.workers[w].pc.task) == LastTry(s.log, s.workers[w].pc.task)
      && (G(p, s', Mid, s.workers[w].pc.task) == 0 ==> G(p, s, Mid, s.workers[w].pc.task) == 0)
      && s.log <= s'.log
  {
    hide Sum, Count, LastTry, FactsPre, Counted, TriesSound, ValidPlan, ExclusionKept, StatusSound, Facts, Honest;
    PreFacts(p, s, w);
    var me := s.workers[w];
    var s' := WorkerStep(p, s, w, o);
    WorkerFrame(p, s, w, o);
    WorkerLogs(p, s, w, o);
    var ev := if s'.log == s.log then [] else [s'.log[|s.log|]];
    Moved(p, s, s', w, ev, Mid, me.pc.task);
    if ev != [] { LastTrySnoc(s.log, ev[0], me.pc.task); }
  }

  /** While a push worker writes, its task stays in the middle of an attempt. */
  lemma MidStays(p: Plan, s: State, w: nat, o: Oracle)
    requires CanStep(s, w) && WellTyped(p, s.workers[w]) && s.workers[w].pc.On? && s.workers[w].pc.task.Push?
    requires s.workers[w].pc.phase.Writing? && s.workers[w].pc.phase.writes != []
    ensures G(p, WorkerStep(p, s, w, o), Mid, s.workers[w].pc.task) > 0
  {
    var me := s.workers[w];
    var t := me.pc.task;
    WorkerFrame(p, s, w, o);
    Moved(p, s, WorkerStep(p, s, w, o), w, [Wrote(t, me.pc.phase.writes[0])], Mid, t);
    SumHas(RoleOf(p, Mid, t), s.workers, w);
    hide Sum, Count;
  }

  lemma PushWriting(p: Plan, s: State, w: nat, o: Oracle)
    requires FactsPre(p, s, w) && s.workers[w].pc.task.Push?
    requires s.workers[w].pc.phase.Writing? && s.workers[w].pc.phase.writes != []
    ensures Facts(p, WorkerStep(p, s, w, o), s.workers[w].pc.task.id)
  {
    hide N, Sum, Taken, Count, LastTry, G, ValidPlan, Counted, TriesSound, ExclusionKept;
    var me := s.workers[w];
    var t := me.pc.task;
    var x := t.id;
    assert WellTyped(p, me) && Facts(p, s, x);
    HeldOnce(p, s, w);
    AfterBuild(p, s, Push(x));
    Elsewhere(p, s, w, o, Build(x));
    QueuedPushFrame(p, s, w, o, x);
    WorkerFrame(p, s, w, o);
    assert me.pc.phase.writes[0] in me.pc.phase.writes;
    MidStays(p, s, w, o);
    hide FactsPre, Typed, StatusSound;
  }

  lemma PushEnding(p: Plan, s: State, w: nat, o: Oracle)
    requires FactsPre(p, s, w) && s.workers[w].pc.task.Push?
    requires s.workers[w].pc.phase.Writing? && s.workers[w].pc.phase.writes == []
    ensures Facts(p, WorkerStep(p, s, w, o), s.workers[w].pc.task.id)
  {
    hide N, Sum, Taken, Count, LastTry, G, ValidPlan, Counted, TriesSound, ExclusionKept, StatusSound, FactsPre;
    PreFacts(p, s, w);
    var me := s.workers[w];
    var t := me.pc.task;
    HeldOnce(p, s, w);
    AfterBuild(p, s, t);
    Elsewhere(p, s, w, o, Build(t.id));
    QueuedPushFrame(p, s, w, o, t.id);
    LastTrySnoc(s.log, Ended(t, !me.pc.phase.raises && Succeeds(t, s.status)), t);
  }

  // ---------------------------------------------------------------- what the workers know

  /** The parent whose status a build task reads has failed to be pushed, if it is in an error state. */
  lemma ParentFailed(p: Plan, s: State, x: Id)
    requires ValidPlan(p) && Counted(p, s) && ExclusionKept(p, s) && StatusSound(p, s)
    requires N(s, Queued(Build(x))) > 0 && x < |p.parent| && Parent(p, x).Some? && IsError(At(s.status, Parent(p, x).value))
    ensures PushFailed(s.log, Parent(p, x).value)
  {
    var y := Parent(p, x).value;
    assert CountedFor(p, s, Build(x));
    assert Facts(p, s, y);
    assert At(p.filtered, y).Skipped? ==> At(s.status, y) == Skipped;
    hide Count, Sum, G, N, Taken, LastTry;
  }

  lemma {:induction false} LogGrows(log: seq<Event>, log': seq<Event>, x: Id)
    requires log <= log' && PushFailed(log, x)
    ensures PushFailed(log', x)
  {
    assert forall e :: e in log ==> e in log';
  }

  /** A worker stays honest in its own steps. */
  lemma HonestOwn(p: Plan, s: State, w: nat, o: Oracle)
    requires FactsPre(p, s, w)
    ensures Honest(p, WorkerStep(p, s, w, o), WorkerStep(p, s, w, o).workers[w].pc)
  {
    var ph := s.workers[w].pc.phase;
    if ph.Guarding? {
      HonestGuard(p, s, w, o);
    } else if ph.Writing? {
      HonestWriting(p, s, w, o);
    } else {
      HonestElse(p, s, w, o);
    }
    hide FactsPre, Honest, WorkerStep;
  }

  lemma HonestElse(p: Plan, s: State, w: nat, o: Oracle)
    requires FactsPre(p, s, w) && !s.workers[w].pc.phase.Guarding? && !s.workers[w].pc.phase.Writing?
    ensures Honest(p, WorkerStep(p, s, w, o), WorkerStep(p, s, w, o).workers[w].pc)
  {
    hide Count, Sum, G, N, Taken, LastTry, Counted, TriesSound, Facts, ValidPlan, ExclusionKept;
    var me := s.workers[w];
    assert WellTyped(p, me) && Honest(p, s, me.pc);
    hide Typed, StatusSound, FactsPre;
  }

  lemma HonestGuard(p: Plan, s: State, w: nat, o: Oracle)
    requires FactsPre(p, s, w) && s.workers[w].pc.phase.Guarding?
    ensures Honest(p, WorkerStep(p, s, w, o), WorkerStep(p, s, w, o).workers[w].pc)
  {
    var me := s.workers[w];
    var t := me.pc.task;
    assert WellTyped(p, me);
    HeldOnce(p, s, w);
    if Parent(p, t.id).Some? && IsError(At(s.status, Parent(p, t.id).value)) {
      ParentFailed(p, s, t.id);
    } else {
      var a := BuildAttempt(o.env);
      assert forall v <- a.writes :: v in {Building, Error, ConnectionError, Built};
    }
    hide Count, Sum, G, N, FactsPre, BuildAttempt, WellTyped, PushFailed;
  }

  lemma HonestWriting(p: Plan, s: State, w: nat, o: Oracle)
    requires FactsPre(p, s, w) && s.workers[w].pc.phase.Writing?
    ensures Honest(p, WorkerStep(p, s, w, o), WorkerStep(p, s, w, o).workers[w].pc)
  {
    hide *;
    PreFacts(p, s, w);
    if s.workers[w].pc.phase.writes != [] {
      HonestWrite(p, s, w, o);
    } else {
      HonestEnd(p, s, w, o);
    }
  }

  lemma HonestWrite(p: Plan, s: State, w: nat, o: Oracle)
    requires CanStep(s, w) && s.workers[w].pc.On? && Honest(p, s, s.workers[w].pc)
    requires s.workers[w].pc.phase.Writing? && s.workers[w].pc.phase.writes != []
    ensures Honest(p, WorkerStep(p, s, w, o), WorkerStep(p, s, w, o).workers[w].pc)
  {
    hide PushFailed;
    var me := s.workers[w];
    var t, ph := me.pc.task, me.pc.phase;
    if !t.Tomb? {
      assert Final(At(s.status, t.id), ph.writes) == Final(ph.writes[0], ph.writes[1..]);
      assert forall v <- ph.writes[1..] :: v in ph.writes;
      if ParentError in ph.writes {
        LogGrows(s.log, s.log + [Wrote(t, ph.writes[0])], Parent(p, t.id).value);
      }
    }
  }

  lemma HonestEnd(p: Plan, s: State, w: nat, o: Oracle)
    requires FactsPre(p, s, w) && s.workers[w].pc.phase.Writing? && s.workers[w].pc.phase.writes == []
    ensures Honest(p, WorkerStep(p, s, w, o), WorkerStep(p, s, w, o).workers[w].pc)
  {
    hide Count, Sum, G, N, LastTry, Counted, TriesSound, ExclusionKept, StatusSound, TypedPhase, Taken, FactsPre, ValidPlan,
      PushFailed;
    PreFacts(p, s, w);
    var t := s.workers[w].pc.task;
    HeldOnce(p, s, w);
    NotExcluded(p, s, t);
    if t.Push? { AfterBuild(p, s, t); }
  }

  /** The image of an existing task is not one that filtering excluded. */
  lemma NotExcluded(p: Plan, s: State, t: Task)
    requires Counted(p, s) && ExclusionKept(p, s) && !t.Tomb? && Due(p, s, t) > 0 && t.id < |p.parent|
    ensures !Excluded(At(s.status, t.id))
  {
    QueuedEligible(p, s, t);
    hide Counted, Due;
  }

  /** A worker stays honest while the log grows and its image keeps its status. */
  lemma HonestKept(p: Plan, s: State, s': State, pc: Pc)
    requires Honest(p, s, pc) && s.log <= s'.log
    requires pc.On? && (pc.task.Build? || pc.task.Push?) && !Decided(pc.phase) ==> At(s'.status, pc.task.id) == At(s.status, pc.task.id)
    requires pc.On? && pc.task.Transfer? && pc.phase.Writing? ==> pc.phase.writes == [] && !pc.phase.raises
    ensures Honest(p, s', pc)
  {
    if pc.On? && !pc.task.Tomb? && pc.phase.Writing? && ParentError in pc.phase.writes {
      LogGrows(s.log, s'.log, Parent(p, pc.task.id).value);
    }
    hide PushFailed;
  }

  lemma HonestOther(p: Plan, s: State, w: nat, o: Oracle, i: nat)
    requires ValidPlan(p) && Typed(p, s) && Counted(p, s) && StatusSound(p, s) && CanStep(s, w)
    requires i < |s.workers| && i != w
    ensures Honest(p, WorkerStep(p, s, w, o), s.workers[i].pc)
  {
    hide N, G, Sum, Count, LastTry, Taken, ValidPlan, Counted, Facts;
    var me, other := s.workers[w], s.workers[i];
    var s' := WorkerStep(p, s, w, o);
    assert WellTyped(p, me) && WellTyped(p, other) && Honest(p, s, other.pc);
    hide Typed, StatusSound;
    WorkerLogs(p, s, w, o);
    if !me.pc.On? {
      LoopFrame(p, s, w, o, Build(0));
    } else if other.pc.On? {
      if me.pc.phase.Writing? && me.pc.task.id == other.pc.task.id && !me.pc.task.Transfer?
        && !other.pc.task.Transfer? && !Decided(other.pc.phase)
      {
        SoleWriter(p, s, w, i);
      } else if me.pc.task.id == other.pc.task.id && me.pc.phase.Writing? && !me.pc.task.Transfer? {
      } else {
        StatusFrame(p, s, w, o, other.pc.task.id);
      }
    }
    hide WorkerStep, Honest, Counted, StatusSound;
    HonestKept(p, s, s', other.pc);
  }

  // ---------------------------------------------------------------- all together

  lemma FactsWork(p: Plan, s: State, w: nat, o: Oracle, x: Id)
    requires ValidPlan(p) && Typed(p, s) && Counted(p, s) && ExclusionKept(p, s) && TriesSound(p, s) && StatusSound(p, s)
    requires CanStep(s, w) && x < |p.parent|
    ensures Facts(p, WorkerStep(p, s, w, o), x)
  {
    var me := s.workers[w];
    assert WellTyped(p, me) && Facts(p, s, x);
    hide WorkerStep, Facts, Counted, TriesSound;
    if !me.pc.On? {
      FactsLoop(p, s, w, o, x);
    } else if me.pc.task.id != x {
      FactsElsewhere(p, s, w, o, x);
    } else if me.pc.task.Transfer? {
      FactsTransfer(p, s, w, o);
    } else if me.pc.task.Push? {
      FactsPushing(p, s, w, o);
    } else if Decided(me.pc.phase) {
      FactsBuilt(p, s, w, o);
    } else if me.pc.phase.Tried? {
      FactsDeciding(p, s, w, o);
    } else {
      FactsBuilding(p, s, w, o);
    }
  }

  lemma HonestLoop(p: Plan, s: State, w: nat, o: Oracle)
    requires ValidPlan(p) && Typed(p, s) && Counted(p, s) && StatusSound(p, s)
    requires CanStep(s, w) && !s.workers[w].pc.On?
    ensures Honest(p, WorkerStep(p, s, w, o), WorkerStep(p, s, w, o).workers[w].pc)
  {
    assert WellTyped(p, s.workers[w]);
    LoopFrame(p, s, w, o, Build(0));
    var s' := WorkerStep(p, s, w, o);
    WorkerFrame(p, s, w, o);
    if s'.workers[w].pc.On? {
      var t := s'.workers[w].pc.task;
      assert t in Items(s, s.workers[w].pool);
      assert TaskOf(p, s.workers[w].pool, t);
      QueuedNotTaken(p, s, s.workers[w].pool, t);
      assert Facts(p, s, t.id);
    }
    hide WorkerStep, Counted, N, G, Taken;
  }

  lemma StatusWork(p: Plan, s: State, w: nat, o: Oracle)
    requires ValidPlan(p) && Typed(p, s) && Counted(p, s) && ExclusionKept(p, s) && TriesSound(p, s) && StatusSound(p, s)
    requires CanStep(s, w)
    ensures StatusSound(p, WorkerStep(p, s, w, o))
  {
    var s' := WorkerStep(p, s, w, o);
    WorkerFrame(p, s, w, o);
    assert FactsPre(p, s, w) <==> s.workers[w].pc.On?;
    hide WorkerStep, Facts, Honest, Typed, Counted, TriesSound, ExclusionKept, FactsPre;
    forall x | 0 <= x < |p.parent| ensures Facts(p, s', x) { FactsWork(p, s, w, o, x); }
    forall i | 0 <= i < |s'.workers| ensures Honest(p, s', s'.workers[i].pc) {
      if i != w {
        HonestOther(p, s, w, o, i);
      } else if s.workers[w].pc.On? {
        HonestOwn(p, s, w, o);
      } else {
        HonestLoop(p, s, w, o);
      }
    }
  }

  lemma StatusMain(p: Plan, s: State, a: Action)
    requires Enabled(s, a) && !a.Work? && Launching(s) && StatusSound(p, s)
    ensures StatusSound(p, Step(p, s, a))
  {
    var s' := Step(p, s, a);
    MainFrame(p, s, a);
    hide Step, Facts, Honest;
    assert s.log <= s'.log;
    forall x | 0 <= x < |p.parent| ensures Facts(p, s', x) {
      assert Facts(p, s, x);
      MainCounts(p, s, a, Build(x));
      MainCounts(p, s, a, Push(x));
      if s'.log != s.log {
        var pool :| s'.log == s.log + [TombPut(pool)];
        LastTrySnoc(s.log, TombPut(pool), Push(x));
      }
      hide N, G, LastTry;
      SameFacts(p, s, s', x);
    }
    forall i | 0 <= i < |s'.workers| ensures Honest(p, s', s'.workers[i].pc) {
      assert Honest(p, s, s.workers[i].pc);
      if s'.workers[i].pc == s.workers[i].pc {
        MainHonest(p, s, s', s.workers[i].pc);
      } else {
        IdleHonest(p, s');
      }
    }
  }

  lemma IdleHonest(p: Plan, s: State)
    ensures Honest(p, s, Idle)
  {
  }

  lemma MainHonest(p: Plan, s: State, s': State, pc: Pc)
    requires Honest(p, s, pc) && s.log <= s'.log && s'.status == s.status
    ensures Honest(p, s', pc)
  {
    if pc.On? && !pc.task.Tomb? && pc.phase.Writing? && ParentError in pc.phase.writes {
      LogGrows(s.log, s'.log, Parent(p, pc.task.id).value);
    }
    hide PushFailed;
  }

  // ---------------------------------------------------------------- statuses fixed by filtering

  lemma ExclusionWork(p: Plan, s: State, w: nat, o: Oracle)
    requires ValidPlan(p) && Typed(p, s) && Counted(p, s) && ExclusionKept(p, s) && CanStep(s, w)
    ensures ExclusionKept(p, WorkerStep(p, s, w, o))
  {
    var me := s.workers[w];
    assert WellTyped(p, me);
    var s' := WorkerStep(p, s, w, o);
    if me.pc.On? && me.pc.phase.Writing? && me.pc.phase.writes != [] {
      var v := me.pc.phase.writes[0];
      assert v in me.pc.phase.writes;
      HeldOnce(p, s, w);
      QueuedEligible(p, s, me.pc.task);
      assert s'.status == Written(s.status, me.pc.task.id, v) && !Excluded(v);
    } else {
      assert s'.status == s.status;
    }
    hide WorkerStep, Counted, N, G;
  }
}
