/**
 * The invariant of the scheduler, and what it means for whole runs: for every plan
 * and every schedule of its threads.
 */
module Scheduler {
  import opened Statuses
  import opened Attempts
  import opened Protocol
  import opened Counting
  import opened CountingSteps
  import opened Drain
  import opened StatusHistory
  import opened StatusFacts

  // ---------------------------------------------------------------- causes

  /** What must have happened before the event `e`. */
  predicate Caused(p: Plan, before: seq<Event>, e: Event) {
    match e
    case Queued(Build(x)) =>
      && Eligible(p, x) && x < |p.parent|
      && (Seed(p, x) || (Parent(p, x).Some? && Expanded(Build(Parent(p, x).value)) in before))
    case Queued(Transfer(x)) => p.push && Expanded(Build(x)) in before
    case Queued(Push(x)) => Queued(Transfer(x)) in before
    case Queued(Tomb) => false
    case Wrote(t, v) =>
      && Queued(t) in before
      && (v.ParentError? ==> t.Build? && Parent(p, t.id).Some? && PushFailed(before, Parent(p, t.id).value))
    case Ended(t, ok) => Queued(t) in before && (t.Transfer? ==> ok)
    case Expanded(t) =>
      && Queued(t) in before && Ended(t, true) in before
      && (t.Build? ==> Wrote(t, Built) in before)
    case GaveUp(t, _) => Queued(t) in before
    case Closed(t) => Queued(t) in before
    case TombPut(_) => true
  }

  ghost predicate Causal(p: Plan, log: seq<Event>) {
    forall i :: 0 <= i < |log| ==> Caused(p, log[..i], log[i])
  }

  lemma CausalSnoc(p: Plan, log: seq<Event>, e: Event)
    requires Causal(p, log) && Caused(p, log, e)
    ensures Causal(p, log + [e])
  {
    var log' := log + [e];
    forall i | 0 <= i < |log'| ensures Caused(p, log'[..i], log'[i]) {
      if i < |log| {
        assert log'[..i] == log[..i];
      } else {
        assert log'[..i] == log;
      }
    }
    hide Caused;
  }

  lemma QueuedInLog(p: Plan, s: State, w: nat)
    requires Counted(p, s) && w < |s.workers| && s.workers[w].pc.On? && !s.workers[w].pc.task.Tomb?
    ensures Queued(s.workers[w].pc.task) in s.log
  {
    HeldOnce(p, s, w);
    CountIn(s.log, Queued(s.workers[w].pc.task));
    hide Counted, Count, Due, G;
  }

  /** A followup that is about to be put has become due. */
  lemma PutCaused(p: Plan, s: State, w: nat)
    requires Counted(p, s) && w < |s.workers| && WellTyped(p, s.workers[w]) && s.workers[w].pc.On?
    requires s.workers[w].pc.phase.Putting? && s.workers[w].pc.phase.rest != []
    ensures Caused(p, s.log, Queued(s.workers[w].pc.phase.rest[0]))
  {
    var rest := s.workers[w].pc.phase.rest;
    var f := rest[0];
    assert FollowupOf(p, s.workers[w].pool, f);
    CountIn(rest, f);
    SumHas(RoleOf(p, Pending, f), s.workers, w);
    assert CountedFor(p, s, f);
    assert Due(p, s, f) > 0;
    if f.Build? {
      if Parent(p, f.id).Some? { CountIn(s.log, Expanded(Build(Parent(p, f.id).value))); }
    } else {
      CountIn(s.log, Expanded(Build(f.id)));
    }
    hide Count, Sum, G, Counted;
  }

  lemma ExpandCaused(p: Plan, s: State, w: nat)
    requires Counted(p, s) && StatusSound(p, s) && w < |s.workers| && WellTyped(p, s.workers[w]) && s.workers[w].pc.On?
    requires s.workers[w].pc.phase == Tried(true)
    ensures Caused(p, s.log, Expanded(s.workers[w].pc.task))
  {
    var t := s.workers[w].pc.task;
    QueuedInLog(p, s, w);
    assert CountedFor(p, s, t);
    SumHas(RoleOf(p, Won, t), s.workers, w);
    CountIn(s.log, Ended(t, true));
    assert Honest(p, s, s.workers[w].pc);
    assert Facts(p, s, t.id);
    hide Count, Sum, G, Counted, Taken, LastTry;
  }

  /** What a worker step logs has its causes in the log. */
  lemma EventCaused(p: Plan, s: State, w: nat, o: Oracle)
    requires Counted(p, s) && StatusSound(p, s) && CanStep(s, w) && WellTyped(p, s.workers[w])
    requires WorkerStep(p, s, w, o).log != s.log
    ensures |WorkerStep(p, s, w, o).log| > |s.log| && Caused(p, s.log, WorkerStep(p, s, w, o).log[|s.log|])
  {
    hide Counted, StatusSound, WorkerStep, TaskStep, WellTyped;
    WorkerLogs(p, s, w, o);
    if s.workers[w].pc.On? {
      BusyEventCaused(p, s, w, o);
    } else {
      IdleStep(p, s, w, o);
    }
  }

  lemma BusyEventCaused(p: Plan, s: State, w: nat, o: Oracle)
    requires Counted(p, s) && StatusSound(p, s) && CanStep(s, w) && WellTyped(p, s.workers[w]) && s.workers[w].pc.On?
    requires WorkerStep(p, s, w, o).log != s.log && |WorkerStep(p, s, w, o).log| > |s.log|
    ensures Caused(p, s.log, WorkerStep(p, s, w, o).log[|s.log|])
  {
    hide Counted, StatusSound;
    QueuedInLog(p, s, w);
    var ph := s.workers[w].pc.phase;
    if ph.Putting? {
      PutCaused(p, s, w);
    } else if ph.Tried? && ph.success && !s.workers[w].stop {
      ExpandCaused(p, s, w);
    } else if ph.Writing? && ph.writes != [] {
      WriteCaused(p, s, w);
    } else {
      PlainCaused(p, s, w, o);
    }
    hide At, Written, Succeeds, Children, FirstFollowups, BuildAttempt, Excluded, PushFailed, Eligible, Seed;
  }

  /** Events that need no more than their task's being queued. */
  lemma PlainCaused(p: Plan, s: State, w: nat, o: Oracle)
    requires CanStep(s, w) && WellTyped(p, s.workers[w]) && s.workers[w].pc.On?
    requires Queued(s.workers[w].pc.task) in s.log
    requires var ph := s.workers[w].pc.phase;
      !ph.Putting? && !(ph.Tried? && ph.success && !s.workers[w].stop) && !(ph.Writing? && ph.writes != [])
    requires Counted(p, s) && WorkerStep(p, s, w, o).log != s.log && |WorkerStep(p, s, w, o).log| > |s.log|
    ensures Caused(p, s.log, WorkerStep(p, s, w, o).log[|s.log|])
  {
    hide Counted, At, Written, Children, FirstFollowups, BuildAttempt, Excluded, PushFailed, Eligible, Seed;
    if s.workers[w].pc.task.Transfer? && s.workers[w].pc.phase.Began? {
      TransferCaused(p, s, w);
    }
  }

  /** A transfer that is running was queued. */
  lemma TransferCaused(p: Plan, s: State, w: nat)
    requires Counted(p, s) && w < |s.workers| && s.workers[w].pc.On? && s.workers[w].pc.task.Transfer?
    ensures Queued(s.workers[w].pc.task) in s.log
  {
    hide Counted;
    QueuedInLog(p, s, w);
  }

  lemma CausalWork(p: Plan, s: State, w: nat, o: Oracle)
    requires Typed(p, s) && Counted(p, s) && StatusSound(p, s) && Causal(p, s.log) && CanStep(s, w)
    ensures Causal(p, WorkerStep(p, s, w, o).log)
  {
    hide Counted, StatusSound, WorkerStep, Caused, Causal;
    assert WellTyped(p, s.workers[w]);
    WorkerLogs(p, s, w, o);
    if WorkerStep(p, s, w, o).log != s.log {
      EventCaused(p, s, w, o);
      CausalSnoc(p, s.log, WorkerStep(p, s, w, o).log[|s.log|]);
    }
  }

  lemma WriteCaused(p: Plan, s: State, w: nat)
    requires Counted(p, s) && StatusSound(p, s) && w < |s.workers| && WellTyped(p, s.workers[w]) && s.workers[w].pc.On?
    requires s.workers[w].pc.phase.Writing? && s.workers[w].pc.phase.writes != []
    ensures Caused(p, s.log, Wrote(s.workers[w].pc.task, s.workers[w].pc.phase.writes[0]))
  {
    QueuedInLog(p, s, w);
    assert Honest(p, s, s.workers[w].pc);
    assert s.workers[w].pc.phase.writes[0] in s.workers[w].pc.phase.writes;
    hide PushFailed, Counted, StatusSound;
  }

  lemma CausalMain(p: Plan, s: State, a: Action)
    requires Enabled(s, a) && !a.Work? && Launching(s) && Causal(p, s.log)
    ensures Causal(p, Step(p, s, a).log)
  {
    MainFrame(p, s, a);
    var s' := Step(p, s, a);
    if s'.log != s.log {
      var pool :| s'.log == s.log + [TombPut(pool)];
      CausalSnoc(p, s.log, TombPut(pool));
    }
    hide Step;
  }

  // ---------------------------------------------------------------- the invariant

  ghost predicate Inv(p: Plan, s: State) {
    && Typed(p, s)
    && Counted(p, s)
    && ExclusionKept(p, s)
    && Launching(s)
    && Tallied(s, BuildPool) && Tallied(s, PushPool)
    && PollSound(s)
    && TriesSound(p, s)
    && StatusSound(p, s)
    && Causal(p, s.log)
  }

  lemma InvWork(p: Plan, s: State, w: nat, o: Oracle)
    requires ValidPlan(p) && Inv(p, s) && CanStep(s, w)
    ensures Inv(p, WorkerStep(p, s, w, o))
  {
    hide WorkerStep, Typed, Counted, ExclusionKept, Launching, Tallied, PollSound, TriesSound, StatusSound, Causal, ValidPlan;
    var a := Work(w, o);
    TypedStep(p, s, a);
    CountedWork(p, s, w, o);
    ExclusionWork(p, s, w, o);
    LaunchingStep(p, s, a);
    TalliedWork(p, s, w, o, BuildPool);
    TalliedWork(p, s, w, o, PushPool);
    PollSoundStep(p, s, a);
    TriesWork(p, s, w, o);
    StatusWork(p, s, w, o);
    CausalWork(p, s, w, o);
  }

  lemma InvMain(p: Plan, s: State, a: Action)
    requires ValidPlan(p) && Inv(p, s) && Enabled(s, a) && !a.Work?
    ensures Inv(p, Step(p, s, a))
  {
    assert ExclusionKept(p, Step(p, s, a));
    assert s.main.Launch? && s.main.next < |s.workers| ==> s.workers[s.main.next].pc.NotStarted?;
    hide Step, Typed, Counted, ExclusionKept, Launching, Tallied, PollSound, TriesSound, StatusSound, Causal, ValidPlan;
    TypedStep(p, s, a);
    CountedMain(p, s, a);
    LaunchingStep(p, s, a);
    TalliedMain(p, s, a, BuildPool);
    TalliedMain(p, s, a, PushPool);
    PollSoundStep(p, s, a);
    TriesMain(p, s, a);
    StatusMain(p, s, a);
    CausalMain(p, s, a);
  }

  // ---------------------------------------------------------------- the start

  lemma {:induction false} SeedsCount(p: Plan, n: nat, t: Task)
    ensures Count(Seeds(p, n), t) == Bit(t.Build? && t.id < n && Seed(p, t.id))
    ensures forall u <- Seeds(p, n) :: u.Build? && u.id < n && Seed(p, u.id)
  {
    if n > 0 {
      SeedsCount(p, n - 1, t);
      if Seed(p, n - 1) { CountSnoc(Seeds(p, n - 1), Build(n - 1), t); }
      assert Seeds(p, n - 1) + [] == Seeds(p, n - 1);
    }
  }

  lemma {:induction false} AnnounceCount(ts: seq<Task>, e: Event)
    ensures Count(Announce(ts), e) == (if e.Queued? then Count(ts, e.task) else 0)
  {
    if ts == [] {
      assert Announce(ts) == [];
    } else {
      var n := |ts| - 1;
      AnnounceCount(ts[..n], e);
      assert Announce(ts) == Announce(ts[..n]) + [Queued(ts[n])];
      CountSnoc(Announce(ts[..n]), Queued(ts[n]), e);
    }
  }

  lemma StartCounted(p: Plan, t: Task)
    requires ValidPlan(p) && !t.Tomb?
    ensures CountedFor(p, Start(p), t)
  {
    var s := Start(p);
    var n := |p.filtered|;
    forall r, u ensures G(p, s, r, u) == 0 { SumZero(RoleOf(p, r, u), s.workers); }
    SeedsCount(p, n, t);
    forall e ensures N(s, e) == (if e.Queued? then Count(Seeds(p, n), e.task) else 0) { AnnounceCount(Seeds(p, n), e); }
    assert Count(s.push.items, t) == 0;
    hide Count, Sum, Seeds, N, G;
  }

  lemma StartTallied(p: Plan, pool: Pool)
    ensures Tallied(Start(p), pool) && TombFree(Start(p), pool)
  {
    var s := Start(p);
    SeedsCount(p, |p.filtered|, Tomb);
    AnnounceCount(Seeds(p, |p.filtered|), TombPut(pool));
    SumZero(BusyIn(pool), s.workers);
    assert Count(Items(s, PushPool), Tomb) == 0;
    hide Count, Sum, Seeds;
  }

  /** At the start nothing but the seeds has happened. */
  lemma StartLog(p: Plan, e: Event)
    ensures N(Start(p), e) == if e.Queued? then Count(Seeds(p, |p.filtered|), e.task) else 0
  {
    AnnounceCount(Seeds(p, |p.filtered|), e);
    hide Count, Seeds, Announce;
  }

  lemma StartRoles(p: Plan, r: Role, t: Task)
    ensures G(p, Start(p), r, t) == 0
  {
    SumZero(RoleOf(p, r, t), Start(p).workers);
  }

  lemma {:induction false} NoTriesYet(ts: seq<Task>, t: Task)
    ensures LastTry(Announce(ts), t) == None
  {
    if ts != [] {
      var n := |ts| - 1;
      NoTriesYet(ts[..n], t);
      assert Announce(ts)[..n] == Announce(ts[..n]);
    }
  }

  lemma StartTries(p: Plan, t: Task)
    requires !t.Tomb?
    ensures TriesFor(p, Start(p), t)
  {
    hide Start, Count, Seeds, G;
    StartLog(p, Ended(t, true));
    StartLog(p, Ended(t, false));
    StartLog(p, GaveUp(t, true));
    StartLog(p, GaveUp(t, false));
  }

  lemma StartFacts(p: Plan, x: Id)
    requires ValidPlan(p) && x < |p.parent|
    ensures Facts(p, Start(p), x)
  {
    var s := Start(p);
    assert At(s.status, x) == At(p.filtered, x) && (At(s.status, x).Matched? || Excluded(At(s.status, x)));
    StartLog(p, Expanded(Build(x)));
    StartLog(p, GaveUp(Build(x), true));
    StartLog(p, GaveUp(Build(x), false));
    StartLog(p, Queued(Push(x)));
    StartLog(p, Closed(Build(x)));
    StartRoles(p, Early, Build(x));
    StartRoles(p, Late, Build(x));
    SeedsCount(p, |p.filtered|, Push(x));
    hide Start, Count, Seeds, G, N, LastTry, ValidPlan, PushFailed;
  }

  lemma StartStatus(p: Plan)
    requires ValidPlan(p)
    ensures StatusSound(p, Start(p))
  {
    hide Facts, ValidPlan, Seeds, Announce;
    forall x | 0 <= x < |p.parent| ensures Facts(p, Start(p), x) { StartFacts(p, x); }
  }

  lemma StartTriesSound(p: Plan)
    ensures TriesSound(p, Start(p))
  {
    hide TriesFor, Seeds, Announce;
    forall t: Task | !t.Tomb? ensures TriesFor(p, Start(p), t) { StartTries(p, t); }
  }

  lemma StartCausal(p: Plan)
    requires ValidPlan(p)
    ensures Causal(p, Start(p).log)
  {
    hide Seeds, Seed;
    var n := |p.filtered|;
    SeedsCount(p, n, Tomb);
    forall i | 0 <= i < |Start(p).log| ensures Caused(p, Start(p).log[..i], Start(p).log[i]) {
      var t := Seeds(p, n)[i];
      assert t in Seeds(p, n);
      SeedEligible(p, t.id);
      assert Start(p).log[i] == Queued(t);
    }
  }

  lemma SeedEligible(p: Plan, x: Id)
    requires Seed(p, x)
    ensures Eligible(p, x)
  {
  }

  lemma StartTyped(p: Plan)
    requires |p.parent| == |p.filtered|
    ensures Typed(p, Start(p))
  {
    hide Seeds, Seed, Count, Announce, TypedPhase;
    SeedsCount(p, |p.filtered|, Tomb);
  }

  lemma StartLaunching(p: Plan)
    ensures Launching(Start(p))
  {
    hide Seeds, Announce;
  }

  lemma StartExclusion(p: Plan)
    requires ValidPlan(p)
    ensures |p.parent| == |p.filtered| && ExclusionKept(p, Start(p))
  {
    hide Seeds, Announce;
  }

  lemma StartAllCounted(p: Plan)
    requires ValidPlan(p)
    ensures Counted(p, Start(p))
  {
    hide CountedFor, Start, ValidPlan;
    forall t: Task | !t.Tomb? ensures CountedFor(p, Start(p), t) { StartCounted(p, t); }
  }

  lemma StartPoll(p: Plan)
    ensures PollSound(Start(p)) && Tallied(Start(p), BuildPool) && Tallied(Start(p), PushPool)
  {
    hide Tallied, TombFree, Quiet;
    forall pool: Pool ensures TombFree(Start(p), pool) { StartTallied(p, pool); }
    StartTallied(p, BuildPool);
    StartTallied(p, PushPool);
  }

  lemma StartInv(p: Plan)
    requires ValidPlan(p)
    ensures Inv(p, Start(p))
  {
    hide *;
    StartExclusion(p);
    StartTyped(p);
    StartLaunching(p);
    StartAllCounted(p);
    StartPoll(p);
    StartTriesSound(p);
    StartStatus(p);
    StartCausal(p);
    AllIsInv(p, Start(p));
  }

  lemma AllIsInv(p: Plan, s: State)
    requires Typed(p, s) && Counted(p, s) && ExclusionKept(p, s) && Launching(s)
    requires Tallied(s, BuildPool) && Tallied(s, PushPool) && PollSound(s)
    requires TriesSound(p, s) && StatusSound(p, s) && Causal(p, s.log)
    ensures Inv(p, s)
  {
    hide Typed, Counted, ExclusionKept, Launching, Tallied, PollSound, TriesSound, StatusSound, Causal;
  }

  /** Every state that a schedule leads to satisfies the invariant. */
  lemma {:induction false} RunInv(p: Plan, acts: seq<Action>)
    requires ValidPlan(p) && Run(p, acts).Some?
    ensures Inv(p, Run(p, acts).value)
  {
    hide Inv, ValidPlan, Start, Step, Enabled;
    if acts == [] {
      StartInv(p);
    } else {
      var n := |acts| - 1;
      RunInv(p, acts[..n]);
      var s := Run(p, acts[..n]).value;
      InvStep(p, s, acts[n]);
    }
  }

  lemma InvStep(p: Plan, s: State, a: Action)
    requires ValidPlan(p) && Inv(p, s) && Enabled(s, a)
    ensures Inv(p, Step(p, s, a))
  {
    hide Inv, ValidPlan, WorkerStep, MainStep;
    if a.Work? {
      InvWork(p, s, a.w, a.oracle);
    } else {
      InvMain(p, s, a);
    }
  }
}
