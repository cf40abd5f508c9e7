/** How a run that was not interrupted ends, and how many attempts any run makes. */
module Outcomes {
  import opened Statuses
  import opened Attempts
  import opened Protocol
  import opened Counting
  import opened CountingSteps
  import opened Drain
  import opened StatusHistory
  import opened StatusFacts
  import opened Scheduler
  import opened Runs
  import opened Forest

  /** The build of `x` succeeded. */
  ghost predicate BuiltOk(s: State, x: Id) { Ended(Build(x), true) in s.log }

  /** Every ancestor of `x`, up to its nearest skipped ancestor or the root, was built. */
  ghost predicate ChainBuilt(p: Plan, rank: seq<nat>, s: State, x: Id)
    requires Ranked(p.parent, rank) && ValidPlan(p) && x < |p.parent|
    decreases rank[x]
  {
    || Parent(p, x).None?
    || At(p.filtered, Parent(p, x).value).Skipped?
    || (BuiltOk(s, Parent(p, x).value) && ChainBuilt(p, rank, s, Parent(p, x).value))
  }

  /** In a drained state every task that was ever created is done and decided. */
  lemma DrainedCounts(p: Plan, s: State, t: Task)
    requires Inv(p, s) && SeenDrained(s.main) && !t.Tomb?
    ensures N(s, Queued(t)) == N(s, Closed(t)) == Due(p, s, t) == Taken(p, s, t)
    ensures N(s, Queued(t)) == N(s, Expanded(t)) + N(s, GaveUp(t, false)) && N(s, GaveUp(t, true)) == 0
    ensures N(s, Ended(t, true)) == N(s, Expanded(t))
    ensures G(p, s, Mid, t) == 0
  {
    assert NoTaskLeft(s) by { QuietMeansNoTask(s); }
    assert forall i :: 0 <= i < |s.workers| ==> !s.workers[i].pc.On?;
    SumZero(RoleOf(p, Early, t), s.workers);
    SumZero(RoleOf(p, Late, t), s.workers);
    SumZero(RoleOf(p, Pending, t), s.workers);
    SumZero(RoleOf(p, Mid, t), s.workers);
    SumZero(RoleOf(p, Won, t), s.workers);
    CountIn(s.build.items, t);
    CountIn(s.push.items, t);
    assert t !in s.build.items && t !in s.push.items by {
      assert Items(s, BuildPool) == s.build.items && Items(s, PushPool) == s.push.items;
    }
    assert CountedFor(p, s, t) && TriesFor(p, s, t);
    hide Sum, Count, Due, Typed, Tallied, PollSound, StatusSound, Causal, ExclusionKept, Launching, NoTaskLeft, Counted;
  }

  /**
   * Exactly once, with failures contained: an image to be built gets exactly one build
   * task if the chain above it was built, and otherwise none, and keeps its status.
   */
  lemma {:induction false} ExactlyOnce(p: Plan, rank: seq<nat>, acts: seq<Action>, x: Id)
    requires ValidPlan(p) && Ranked(p.parent, rank) && x < |p.parent| && p.filtered[x].Matched?
    requires Run(p, acts).Some? && SeenDrained(Run(p, acts).value.main)
    ensures var s := Run(p, acts).value;
      && N(s, Queued(Build(x))) == (if ChainBuilt(p, rank, s, x) then 1 else 0)
      && (!ChainBuilt(p, rank, s, x) ==> At(s.status, x).Matched? && Tries(s, Build(x)) == 0)
      && (BuiltOk(s, x) ==> ChainBuilt(p, rank, s, x))
    decreases rank[x]
  {
    RunInv(p, acts);
    var s := Run(p, acts).value;
    hide Run, Typed, Counted, Tallied, PollSound, Causal, ExclusionKept, Launching;
    DrainedCounts(p, s, Build(x));
    CountIn(s.log, Ended(Build(x), true));
    if Parent(p, x).Some? && !At(p.filtered, Parent(p, x).value).Skipped? {
      var y := Parent(p, x).value;
      ExactlyOnce(p, rank, acts, y);
      DrainedCounts(p, s, Build(y));
      CountIn(s.log, Ended(Build(y), true));
    }
    assert Facts(p, s, x) && TriesFor(p, s, Build(x));
    hide Count, Sum, G, LastTry, N, Taken, TriesSound, StatusSound, Inv;
  }

  lemma {:induction false} LastTrySome(log: seq<Event>, t: Task)
    requires Count(log, Ended(t, true)) + Count(log, Ended(t, false)) > 0
    ensures LastTry(log, t).Some?
  {
    if log == [] {
    } else if !(log[|log| - 1].Ended? && log[|log| - 1].task == t) {
      LastTrySome(log[..|log| - 1], t);
    }
  }

  /** Transfers of an uninterrupted run succeed at their first attempt. */
  lemma TransferWorks(p: Plan, s: State, x: Id)
    requires Inv(p, s) && SeenDrained(s.main)
    ensures N(s, GaveUp(Transfer(x), false)) == 0
  {
    var t := Transfer(x);
    DrainedCounts(p, s, t);
    CountIn(s.log, Ended(t, false));
    forall i | 0 <= i < |s.log| ensures s.log[i] != Ended(t, false) {
      assert Caused(p, s.log[..i], s.log[i]);
    }
    assert TriesFor(p, s, t);
    assert Due(p, s, t) <= 1 by { assert CountedFor(p, s, t); }
    hide Count, Sum, G, Due, Taken, Typed, Counted, Tallied, PollSound, StatusSound, ExclusionKept, Launching, Causal;
  }

  lemma BuildEnd(p: Plan, s: State, x: Id)
    requires Inv(p, s) && SeenDrained(s.main)
    ensures N(s, Expanded(Build(x))) == (if BuiltOk(s, x) then 1 else 0)
    ensures BuiltOk(s, x) ==> N(s, Queued(Build(x))) == 1 && N(s, GaveUp(Build(x), false)) == 0
    ensures !BuiltOk(s, x) ==> N(s, GaveUp(Build(x), false)) == N(s, Queued(Build(x)))
    ensures !BuiltOk(s, x) && N(s, Queued(Build(x))) == 1 ==> Tries(s, Build(x)) == p.retries + 1
  {
    DrainedCounts(p, s, Build(x));
    CountIn(s.log, Ended(Build(x), true));
    assert TriesFor(p, s, Build(x));
    assert Due(p, s, Build(x)) <= 1 by { assert CountedFor(p, s, Build(x)); }
    hide Count, Sum, G, Due, Taken, Typed, Counted, Tallied, PollSound, StatusSound, ExclusionKept, Launching, Causal;
  }

  lemma PushEnd(p: Plan, s: State, x: Id)
    requires Inv(p, s) && SeenDrained(s.main)
    ensures N(s, Queued(Push(x))) == (if p.push && BuiltOk(s, x) then 1 else 0)
    ensures N(s, Queued(Push(x))) == 1 ==> LastTry(s.log, Push(x)).Some?
    ensures G(p, s, Mid, Push(x)) == 0
  {
    BuildEnd(p, s, x);
    TransferWorks(p, s, x);
    DrainedCounts(p, s, Transfer(x));
    DrainedCounts(p, s, Push(x));
    assert TriesFor(p, s, Push(x));
    if Tries(s, Push(x)) > 0 { LastTrySome(s.log, Push(x)); }
    hide Count, Sum, Taken, LastTry, BuiltOk, Typed, Counted, Tallied, PollSound, StatusSound, ExclusionKept, Launching, Causal;
  }

  lemma EndState(p: Plan, s: State, x: Id)
    requires ValidPlan(p) && Inv(p, s) && SeenDrained(s.main) && x < |p.parent|
    ensures p.filtered[x].Matched? && !BuiltOk(s, x) ==> !At(s.status, x).Built?
    ensures BuiltOk(s, x) ==> (At(s.status, x).Built? <==> (N(s, Queued(Push(x))) > 0 ==> LastTry(s.log, Push(x)) != Some(false)))
  {
    BuildEnd(p, s, x);
    PushEnd(p, s, x);
    assert Taken(p, s, Build(x)) == N(s, Queued(Build(x))) by { DrainedCounts(p, s, Build(x)); }
    assert Facts(p, s, x);
    hide Count, Sum, G, N, LastTry, BuiltOk, Inv, Taken, Parent, PushFailed;
  }

  /**
   * How the images of a drained run end: built exactly if the build succeeded and, with
   * push enabled, the last push attempt did; each built image has one push task then.
   */
  lemma EndStatus(p: Plan, acts: seq<Action>, x: Id)
    requires ValidPlan(p) && x < |p.parent| && p.filtered[x].Matched?
    requires Run(p, acts).Some? && SeenDrained(Run(p, acts).value.main)
    ensures var s := Run(p, acts).value;
      && N(s, Queued(Push(x))) == (if p.push && BuiltOk(s, x) then 1 else 0)
      && (At(s.status, x).Built? <==> BuiltOk(s, x) && (p.push ==> LastTry(s.log, Push(x)) == Some(true)))
      && (p.push && BuiltOk(s, x) ==> LastTry(s.log, Push(x)).Some?)
      && (!BuiltOk(s, x) && N(s, Queued(Build(x))) == 1 ==> Tries(s, Build(x)) == p.retries + 1)
  {
    hide *;
    RunInv(p, acts);
    var s := Run(p, acts).value;
    BuildEnd(p, s, x);
    PushEnd(p, s, x);
    EndState(p, s, x);
    var last := LastTry(s.log, Push(x));
    assert last == None || last == Some(true) || last == Some(false) by {
      if last.Some? { assert last == (if last.value then Some(true) else Some(false)); }
    }
  }

  // ---------------------------------------------------------------- failed parents

  /**
   * An image carries PARENT_ERROR only with push enabled, and only after some push
   * attempt of its parent has written an error.
   */
  lemma ParentErrorOnlyByPush(p: Plan, acts: seq<Action>, x: Id)
    requires ValidPlan(p) && Run(p, acts).Some? && x < |p.parent|
    requires At(Run(p, acts).value.status, x).ParentError?
    ensures p.push && Parent(p, x).Some?
    ensures var log := Run(p, acts).value.log;
      exists i :: 0 <= i < |log| && log[i] == Wrote(Build(x), ParentError) && PushFailed(log[..i], Parent(p, x).value)
  {
    hide Run, Typed, Counted, Tallied, PollSound, ExclusionKept, Launching, TriesSound, ValidPlan;
    RunInv(p, acts);
    var s := Run(p, acts).value;
    assert Facts(p, s, x);
    var i :| 0 <= i < |s.log| && s.log[i] == Wrote(Build(x), ParentError);
    assert Caused(p, s.log[..i], s.log[i]);
    hide Facts;
    FailureNeedsPush(p, s.log, i, Parent(p, x).value);
  }

  lemma FailureNeedsPush(p: Plan, log: seq<Event>, i: nat, y: Id)
    requires Causal(p, log) && i <= |log| && PushFailed(log[..i], y)
    ensures p.push
  {
    var j: nat :| j < i && log[j].Wrote? && log[j].task == Push(y);
    assert Caused(p, log[..j], log[j]);
    var k := InPrefix(log, j, Queued(Push(y)));
    assert Caused(p, log[..k], log[k]);
    var l := InPrefix(log, k, Queued(Transfer(y)));
    assert Caused(p, log[..l], log[l]);
  }

  // ---------------------------------------------------------------- images left alone

  /** Images that filtering excluded never get a task and never change their status. */
  lemma ExcludedUntouched(p: Plan, acts: seq<Action>, x: Id)
    requires ValidPlan(p) && Run(p, acts).Some? && x < |p.parent| && Excluded(p.filtered[x])
    ensures var s := Run(p, acts).value;
      && At(s.status, x) == p.filtered[x]
      && N(s, Queued(Build(x))) == N(s, Queued(Transfer(x))) == N(s, Queued(Push(x))) == 0
  {
    hide Run, Typed, Tallied, PollSound, Launching, TriesSound, StatusSound, Causal;
    RunInv(p, acts);
    var s := Run(p, acts).value;
    assert CountedFor(p, s, Build(x)) && CountedFor(p, s, Transfer(x)) && CountedFor(p, s, Push(x));
    if Due(p, s, Transfer(x)) > 0 { QueuedEligible(p, s, Transfer(x)); }
    if Due(p, s, Push(x)) > 0 { QueuedEligible(p, s, Push(x)); }
    hide Count, Sum, G, N;
  }

  // ---------------------------------------------------------------- bounds

  datatype Kind = Builds | Transfers | Pushes

  predicate OfKind(t: Task, k: Kind) {
    (k.Builds? && t.Build?) || (k.Transfers? && t.Transfer?) || (k.Pushes? && t.Push?)
  }

  /** Between the top of the attempt loop and the end of the attempt. */
  predicate InAttempt(w: Worker, k: Kind) {
    w.pc.On? && OfKind(w.pc.task, k) && (w.pc.phase.Began? || w.pc.phase.Guarding? || w.pc.phase.Writing?)
  }

  function Running(k: Kind): Worker -> nat { (w: Worker) => Bit(InAttempt(w, k)) }

  /** The attempts of one kind that a schedule begins: the times a worker enters `task.run()`. */
  function Begun(p: Plan, acts: seq<Action>, k: Kind): nat {
    if acts == [] then 0
    else
      var n := |acts| - 1;
      var s := Run(p, acts);
      Begun(p, acts[..n], k)
      + Bit(acts[n].Work? && s.Some? && acts[n].w < |s.value.workers| && InAttempt(s.value.workers[acts[n].w], k)
            && s.value.workers[acts[n].w].pc.phase.Began?)
  }

  /** All finished attempts of one kind in the log. */
  function Attempted(log: seq<Event>, k: Kind): nat {
    if log == [] then 0
    else
      var e := log[|log| - 1];
      Attempted(log[..|log| - 1], k) + Bit(e.Ended? && OfKind(e.task, k))
  }

  function TaskFor(k: Kind, x: Id): Task {
    match k
    case Builds => Build(x)
    case Transfers => Transfer(x)
    case Pushes => Push(x)
  }

  /** The finished attempts of one kind, image by image. */
  function PerImage(log: seq<Event>, k: Kind, n: nat): nat {
    if n == 0 then 0
    else PerImage(log, k, n - 1) + Count(log, Ended(TaskFor(k, n - 1), true)) + Count(log, Ended(TaskFor(k, n - 1), false))
  }

  lemma {:induction false} PerImageSnoc(log: seq<Event>, e: Event, k: Kind, n: nat)
    ensures PerImage(log + [e], k, n) == PerImage(log, k, n) + Bit(e.Ended? && OfKind(e.task, k) && e.task.id < n)
  {
    if n > 0 {
      PerImageSnoc(log, e, k, n - 1);
      CountSnoc(log, e, Ended(TaskFor(k, n - 1), true));
      CountSnoc(log, e, Ended(TaskFor(k, n - 1), false));
    }
    hide Count;
  }

  lemma {:induction false} PerImageNil(k: Kind, n: nat)
    ensures PerImage([], k, n) == 0
  {
    if n > 0 { PerImageNil(k, n - 1); }
  }

  /** Counting attempts in the log or image by image is the same. */
  lemma {:induction false} AttemptsPerImage(log: seq<Event>, k: Kind, n: nat)
    requires forall e <- log :: e.Ended? ==> !e.task.Tomb? && e.task.id < n
    ensures Attempted(log, k) == PerImage(log, k, n)
  {
    if log == [] {
      PerImageNil(k, n);
    } else {
      var m := |log| - 1;
      assert log[m] in log;
      AttemptsPerImage(log[..m], k, n);
      PerImageSnoc(log[..m], log[m], k, n);
      assert log == log[..m] + [log[m]];
    }
    hide PerImage;
  }

  /** The number of images that are to be built. */
  function ToBuild(p: Plan, n: nat): nat {
    if n == 0 then 0 else ToBuild(p, n - 1) + Bit(Eligible(p, n - 1))
  }

  /** The step has logged the end of an attempt. */
  predicate EndsOne(s: State, s': State, k: Kind) {
    |s'.log| > |s.log| && s'.log[|s.log|].Ended? && OfKind(s'.log[|s.log|].task, k)
  }

  lemma LoopStays(p: Plan, s: State, w: nat, o: Oracle, k: Kind)
    requires CanStep(s, w) && !s.workers[w].pc.On?
    ensures var s' := WorkerStep(p, s, w, o);
      !InAttempt(s.workers[w], k) && !InAttempt(s'.workers[w], k) && !EndsOne(s, s', k)
  {
  }

  predicate Within(pc: Pc) { pc.On? && (pc.phase.Began? || pc.phase.Guarding? || pc.phase.Writing?) }

  predicate LogsEnd(s: State, s': State) { |s'.log| > |s.log| && s'.log[|s.log|].Ended? }

  /** A step inside an attempt: it goes on, or it ends and this is logged. */
  lemma StepWithin(p: Plan, s: State, w: nat, o: Oracle)
    requires CanStep(s, w) && Within(s.workers[w].pc)
    ensures var s' := WorkerStep(p, s, w, o);
      && (Within(s'.workers[w].pc) <==> !LogsEnd(s, s'))
      && (Within(s'.workers[w].pc) && s.workers[w].pc.task != Tomb ==> !s'.workers[w].pc.phase.Began?)
  {
    hide BuildAttempt, Succeeds, Children, FirstFollowups, Written, At, PushWrite, Excluded, IsError, Parent, QueueOf;
  }

  /** A step outside of an attempt: at most it begins one. */
  lemma StepOutside(p: Plan, s: State, w: nat, o: Oracle)
    requires CanStep(s, w) && s.workers[w].pc.On? && !Within(s.workers[w].pc)
    requires s.workers[w].pc.phase.Putting? && s.workers[w].pc.phase.rest != [] ==> s.workers[w].pc.phase.rest[0] != Tomb
    ensures var s' := WorkerStep(p, s, w, o);
      && !LogsEnd(s, s')
      && (Within(s'.workers[w].pc) ==> s'.workers[w].pc.phase.Began?)
  {
    hide BuildAttempt, Succeeds, Children, FirstFollowups, Written, At, PushWrite, Excluded, IsError, Parent, QueueOf;
  }

  lemma TaskMoves(p: Plan, s: State, w: nat, o: Oracle, k: Kind)
    requires CanStep(s, w) && WellTyped(p, s.workers[w]) && s.workers[w].pc.On?
    ensures var s' := WorkerStep(p, s, w, o);
      Bit(EndsOne(s, s', k)) + Bit(InAttempt(s'.workers[w], k))
      == Bit(InAttempt(s.workers[w], k)) + Bit(InAttempt(s'.workers[w], k) && s'.workers[w].pc.phase.Began?)
  {
    AboutTask(p, s, w, o);
    TaskIsNoTomb(p, s.workers[w]);
    if Within(s.workers[w].pc) { StepWithin(p, s, w, o); } else { StepOutside(p, s, w, o); }
    var s' := WorkerStep(p, s, w, o);
    assert EndsOne(s, s', k) <==> LogsEnd(s, s') && OfKind(s.workers[w].pc.task, k) by {
      hide WorkerStep;
      assert LogsEnd(s, s') ==> Progress(s'.log[|s.log|], s'.log[|s.log|].task);
    }
    hide WorkerStep, OfKind;
  }

  lemma TaskIsNoTomb(p: Plan, w: Worker)
    requires WellTyped(p, w) && w.pc.On?
    ensures w.pc.task != Tomb
    ensures w.pc.phase.Putting? && w.pc.phase.rest != [] ==> w.pc.phase.rest[0] != Tomb
  {
    if w.pc.phase.Putting? && w.pc.phase.rest != [] {
      assert w.pc.phase.rest[0] in w.pc.phase.rest;
    }
  }

  lemma AttemptedStep(s: State, s': State, k: Kind)
    requires s'.log == s.log || (|s'.log| == |s.log| + 1 && s'.log == s.log + [s'.log[|s.log|]])
    ensures Attempted(s'.log, k) == Attempted(s.log, k) + Bit(EndsOne(s, s', k))
  {
    if s'.log != s.log {
      assert s'.log[..|s'.log| - 1] == s.log;
    }
  }

  /** What one step of a worker adds to the attempts finished and running. */
  lemma BegunWork(p: Plan, s: State, w: nat, o: Oracle, k: Kind)
    requires CanStep(s, w) && WellTyped(p, s.workers[w])
    ensures var s' := WorkerStep(p, s, w, o);
      Attempted(s'.log, k) + Bit(InAttempt(s'.workers[w], k))
      == Attempted(s.log, k) + Bit(InAttempt(s.workers[w], k))
         + Bit(InAttempt(s'.workers[w], k) && s'.workers[w].pc.phase.Began?)
  {
    hide WorkerStep, WellTyped, Attempted, EndsOne, InAttempt;
    WorkerLogs(p, s, w, o);
    AttemptedStep(s, WorkerStep(p, s, w, o), k);
    if s.workers[w].pc.On? {
      TaskMoves(p, s, w, o, k);
    } else {
      LoopStays(p, s, w, o, k);
    }
  }

  /** An attempt that has begun is finished or running. */
  lemma {:induction false} BegunIs(p: Plan, acts: seq<Action>, k: Kind)
    requires ValidPlan(p) && Run(p, acts).Some?
    ensures Begun(p, acts, k) == Attempted(Run(p, acts).value.log, k) + Sum(Running(k), Run(p, acts).value.workers)
  {
    hide Inv, Start, Attempted, Sum, WorkerStep, MainStep, InAttempt, ValidPlan;
    if acts == [] {
      NothingBegun(p, k);
    } else {
      var n := |acts| - 1;
      BegunIs(p, acts[..n], k);
      RunInv(p, acts[..n]);
      var s, s' := Run(p, acts[..n]).value, Run(p, acts).value;
      if acts[n].Work? {
        var w := acts[n].w;
        WorkerTyped(p, s, w);
        BegunWork(p, s, w, acts[n].oracle, k);
        WorkerFrame(p, s, w, acts[n].oracle);
        SumUpdate(Running(k), s.workers, w, s'.workers[w]);
      } else {
        BegunMain(p, s, acts[n], k);
      }
    }
  }

  lemma WorkerTyped(p: Plan, s: State, w: nat)
    requires Inv(p, s) && w < |s.workers|
    ensures WellTyped(p, s.workers[w])
  {
  }

  lemma {:induction false} AnnouncedOnly(ts: seq<Task>, k: Kind)
    ensures Attempted(Announce(ts), k) == 0
  {
    if ts != [] {
      var n := |ts| - 1;
      AnnouncedOnly(ts[..n], k);
      assert Announce(ts)[..n] == Announce(ts[..n]);
    }
  }

  lemma NothingBegun(p: Plan, k: Kind)
    ensures Attempted(Start(p).log, k) + Sum(Running(k), Start(p).workers) == 0
  {
    AnnouncedOnly(Seeds(p, |p.filtered|), k);
    SumZero(Running(k), Start(p).workers);
  }

  /** The main thread neither begins nor ends an attempt. */
  lemma BegunMain(p: Plan, s: State, a: Action, k: Kind)
    requires Inv(p, s) && Enabled(s, a) && !a.Work?
    ensures var s' := Step(p, s, a);
      Attempted(s'.log, k) + Sum(Running(k), s'.workers) == Attempted(s.log, k) + Sum(Running(k), s.workers)
  {
    hide Step, Enabled, Inv;
    LaunchingFrom(p, s);
    MainFrame(p, s, a);
    var s' := Step(p, s, a);
    SumSame(Running(k), s.workers, s'.workers);
    if s'.log != s.log {
      assert s'.log[..|s'.log| - 1] == s.log;
    }
  }

  lemma LaunchingFrom(p: Plan, s: State)
    requires Inv(p, s)
    ensures Launching(s)
  {
  }

  /**
   * The bound on the work: any run begins at most (retries + 1) * B build attempts, as
   * many push attempts, and B transfers, for B images to be built.
   */
  lemma AttemptBound(p: Plan, acts: seq<Action>, k: Kind)
    requires ValidPlan(p) && Run(p, acts).Some?
    ensures Begun(p, acts, k) <= (if k.Transfers? then 1 else p.retries + 1) * ToBuild(p, |p.parent|)
  {
    hide Run, Inv, ValidPlan, Begun, Attempted, Sum, PerImage, RunningPerImage;
    RunInv(p, acts);
    var s := Run(p, acts).value;
    var n := |p.parent|;
    BegunIs(p, acts, k);
    InvCausal(p, s);
    EndedKnown(p, s);
    AttemptsPerImage(s.log, k, n);
    RunningKnown(p, s, k);
    RunningPerImageIs(s.workers, k, n);
    PerImageBound(p, s, k, n);
  }

  lemma InvCausal(p: Plan, s: State)
    requires Inv(p, s)
    ensures Causal(p, s.log)
  {
  }

  /** The workers in an attempt at one task. */
  function RunningAt(t: Task): Worker -> nat {
    (w: Worker) => Bit(w.pc.On? && w.pc.task == t && (w.pc.phase.Began? || w.pc.phase.Guarding? || w.pc.phase.Writing?))
  }

  /** The running attempts of one kind, image by image. */
  function RunningPerImage(ws: seq<Worker>, k: Kind, n: nat): nat {
    if n == 0 then 0 else RunningPerImage(ws, k, n - 1) + Sum(RunningAt(TaskFor(k, n - 1)), ws)
  }

  lemma {:induction false} RunningNone(k: Kind, n: nat)
    ensures RunningPerImage([], k, n) == 0
  {
    if n > 0 { RunningNone(k, n - 1); }
  }

  lemma {:induction false} RunningSnoc(ws: seq<Worker>, w: Worker, k: Kind, n: nat)
    ensures RunningPerImage(ws + [w], k, n)
         == RunningPerImage(ws, k, n) + Bit(InAttempt(w, k) && w.pc.task.id < n)
  {
    if n > 0 {
      RunningSnoc(ws, w, k, n - 1);
      assert (ws + [w])[..|ws|] == ws;
    }
  }

  /** Counting the running attempts over the workers or image by image is the same. */
  lemma {:induction false} RunningPerImageIs(ws: seq<Worker>, k: Kind, n: nat)
    requires forall i :: 0 <= i < |ws| && InAttempt(ws[i], k) ==> ws[i].pc.task.id < n
    ensures Sum(Running(k), ws) == RunningPerImage(ws, k, n)
  {
    if ws == [] {
      RunningNone(k, n);
    } else {
      var m := |ws| - 1;
      RunningPerImageIs(ws[..m], k, n);
      RunningSnoc(ws[..m], ws[m], k, n);
      assert ws == ws[..m] + [ws[m]];
    }
    hide RunningPerImage;
  }

  lemma RunningKnown(p: Plan, s: State, k: Kind)
    requires Inv(p, s)
    ensures forall i :: 0 <= i < |s.workers| && InAttempt(s.workers[i], k) ==> s.workers[i].pc.task.id < |p.parent|
  {
    forall i | 0 <= i < |s.workers| && InAttempt(s.workers[i], k) ensures s.workers[i].pc.task.id < |p.parent| {
      assert WellTyped(p, s.workers[i]);
    }
    hide Inv;
  }

  /** Every queued task belongs to an image of the plan. */
  lemma KnownTask(p: Plan, log: seq<Event>, i: nat)
    requires Causal(p, log) && i < |log| && log[i].Queued?
    ensures !log[i].task.Tomb? && log[i].task.id < |p.parent|
    decreases i
  {
    assert Caused(p, log[..i], log[i]);
    var t := log[i].task;
    if t.Transfer? {
      var j := InPrefix(log, i, Expanded(Build(t.id)));
      assert Caused(p, log[..j], log[j]);
      var k := InPrefix(log, j, Queued(Build(t.id)));
      KnownTask(p, log, k);
    } else if t.Push? {
      var j := InPrefix(log, i, Queued(Transfer(t.id)));
      KnownTask(p, log, j);
    }
  }

  lemma EndedKnown(p: Plan, s: State)
    requires Causal(p, s.log)
    ensures forall e <- s.log :: e.Ended? ==> !e.task.Tomb? && e.task.id < |p.parent|
  {
    forall e | e in s.log && e.Ended? ensures !e.task.Tomb? && e.task.id < |p.parent| {
      var i :| 0 <= i < |s.log| && s.log[i] == e;
      assert Caused(p, s.log[..i], s.log[i]);
      var j := InPrefix(s.log, i, Queued(e.task));
      KnownTask(p, s.log, j);
    }
  }

  /** No attempt without eligibility, and no more than the loop allows; one for a transfer. */
  lemma TriesBound(p: Plan, s: State, k: Kind, x: Id)
    requires Inv(p, s)
    ensures var t := TaskFor(k, x);
      && Tries(s, t) + Sum(RunningAt(t), s.workers) <= (if k.Transfers? then 1 else p.retries + 1)
      && (!Eligible(p, x) ==> Tries(s, t) + Sum(RunningAt(t), s.workers) == 0)
  {
    hide *;
    var t := TaskFor(k, x);
    KindOf(k, x);
    TriesParts(p, s, t);
    if t.Transfer? {
      TransferTries(p, s, x);
    }
    if Sum(RunningAt(t), s.workers) > 0 {
      RunningIsEarly(p, s, t);
      RunningTries(p, s, t);
    }
    if !Eligible(p, x) {
      NeverQueued(p, s, t);
    }
  }

  lemma KindOf(k: Kind, x: Id)
    ensures var t := TaskFor(k, x); !t.Tomb? && t.id == x && (t.Transfer? <==> k.Transfers?) && (t.Transfer? ==> t == Transfer(x))
  {
  }

  /** What the invariant says about the attempts at one task. */
  lemma TriesParts(p: Plan, s: State, t: Task)
    requires Inv(p, s) && !t.Tomb?
    ensures Counted(p, s) && TriesSound(p, s) && Causal(p, s.log) && CountedFor(p, s, t)
    ensures Tries(s, t) <= p.retries + 1 && (N(s, Queued(t)) == 0 ==> Tries(s, t) == 0)
  {
    hide Count, Sum, Typed, Tallied, PollSound, Launching, StatusSound, ExclusionKept, Causal;
    assert TriesFor(p, s, t) && CountedFor(p, s, t);
  }

  lemma NeverQueued(p: Plan, s: State, t: Task)
    requires Inv(p, s) && !t.Tomb? && !Eligible(p, t.id)
    ensures Tries(s, t) == 0 && Sum(RunningAt(t), s.workers) == 0
  {
    hide Count, Sum, Typed, Tallied, PollSound, Launching, StatusSound, ExclusionKept, Causal;
    TriesParts(p, s, t);
    if N(s, Queued(t)) > 0 { QueuedEligible(p, s, t); }
    if Sum(RunningAt(t), s.workers) > 0 {
      RunningIsEarly(p, s, t);
    }
  }

  /** A worker in an attempt has taken the task and not decided it. */
  lemma RunningIsEarly(p: Plan, s: State, t: Task)
    requires CountedFor(p, s, t) && Sum(RunningAt(t), s.workers) > 0
    ensures Sum(RunningAt(t), s.workers) == 1 && N(s, Queued(t)) == 1 && N(s, Ended(t, true)) == 0
  {
    SumBound(RunningAt(t), RoleOf(p, Won, t), RoleOf(p, Early, t), s.workers);
    hide Count, Sum, Due;
  }

  lemma RunningTries(p: Plan, s: State, t: Task)
    requires TriesSound(p, s) && Sum(RunningAt(t), s.workers) > 0
    ensures Tries(s, t) <= p.retries
  {
    var i := SumFrom(RunningAt(t), s.workers);
    assert TriesAt(p, s, s.workers[i].pc);
    hide Count, Sum;
  }

  /** A transfer never fails, so it is tried once. */
  lemma TransferTries(p: Plan, s: State, x: Id)
    requires Counted(p, s) && Causal(p, s.log)
    ensures Tries(s, Transfer(x)) == N(s, Ended(Transfer(x), true)) <= 1
  {
    var t := Transfer(x);
    forall i | 0 <= i < |s.log| ensures s.log[i] != Ended(t, false) {
      assert Caused(p, s.log[..i], s.log[i]);
    }
    CountIn(s.log, Ended(t, false));
    assert CountedFor(p, s, t);
    MidAndWonAreEarly(p, s, t);
    hide Count, Sum, G, Due, Causal, Caused, Counted;
  }

  lemma AddOne(c: nat, b: nat, bit: bool, tries: nat)
    requires tries <= c && (!bit ==> tries == 0)
    ensures c * b + tries <= c * (b + Bit(bit))
  {
    assert bit ==> c * (b + 1) == c * b + c;
  }

  lemma {:induction false} PerImageBound(p: Plan, s: State, k: Kind, n: nat)
    requires Inv(p, s)
    ensures PerImage(s.log, k, n) + RunningPerImage(s.workers, k, n)
         <= (if k.Transfers? then 1 else p.retries + 1) * ToBuild(p, n)
  {
    hide Inv, Count, Eligible, Sum;
    var c := if k.Transfers? then 1 else p.retries + 1;
    if n > 0 {
      PerImageBound(p, s, k, n - 1);
      TriesBound(p, s, k, n - 1);
      AddOne(c, ToBuild(p, n - 1), Eligible(p, n - 1),
             Tries(s, TaskFor(k, n - 1)) + Sum(RunningAt(TaskFor(k, n - 1)), s.workers));
    }
  }
}
