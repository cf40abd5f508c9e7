/** What holds of every run of the scheduler, and of every run that ends drained. */
module Runs {
  import opened Statuses
  import opened Attempts
  import opened Protocol
  import opened Counting
  import opened CountingSteps
  import opened Drain
  import opened StatusHistory
  import opened StatusFacts
  import opened Scheduler

  // ---------------------------------------------------------------- one writer

  /** The copies of a task that may still write: queued, or with a worker in its attempt loop. */
  function Live(p: Plan, s: State, t: Task): nat { InQueues(s, t) + G(p, s, Early, t) }

  /** At any moment one task at most can still write the status of an image. */
  lemma OneWriter(p: Plan, acts: seq<Action>, x: Id)
    requires ValidPlan(p) && Run(p, acts).Some?
    ensures var s := Run(p, acts).value;
      && Live(p, s, Build(x)) + Live(p, s, Push(x)) <= 1
      && (Live(p, s, Push(x)) > 0 ==> N(s, Expanded(Build(x))) == 1)
  {
    RunInv(p, acts);
    var s := Run(p, acts).value;
    assert CountedFor(p, s, Build(x)) && CountedFor(p, s, Push(x));
    if Live(p, s, Push(x)) > 0 {
      AfterBuild(p, s, Push(x));
    }
    hide Run, Sum, Count, G, N, Typed, Tallied, PollSound, TriesSound, StatusSound, Causal, ExclusionKept;
  }

  /** Two workers in the middle of writing one image's status are the same worker. */
  lemma OneWritingWorker(p: Plan, acts: seq<Action>, i: nat, j: nat)
    requires ValidPlan(p) && Run(p, acts).Some?
    requires var ws := Run(p, acts).value.workers;
      && i < |ws| && j < |ws|
      && ws[i].pc.On? && ws[j].pc.On? && ws[i].pc.phase.Writing? && ws[j].pc.phase.Writing?
      && !ws[i].pc.task.Transfer? && !ws[j].pc.task.Transfer?
      && !ws[i].pc.task.Tomb? && !ws[j].pc.task.Tomb? && ws[i].pc.task.id == ws[j].pc.task.id
    ensures i == j
  {
    hide Run, Typed, Counted, Tallied, PollSound, TriesSound, StatusSound, Causal, ExclusionKept, Launching;
    RunInv(p, acts);
    SoleWriter(p, Run(p, acts).value, i, j);
  }

  // ---------------------------------------------------------------- parents first

  lemma {:induction false} InPrefix<T>(xs: seq<T>, i: nat, e: T) returns (j: nat)
    requires i <= |xs| && e in xs[..i]
    ensures j < i && xs[j] == e
  {
    j :| 0 <= j < i && xs[..i][j] == e;
  }

  /** Nothing is written for an image that has a parent to be built before that parent was built. */
  lemma ParentsFirst(p: Plan, acts: seq<Action>, i: nat)
    requires ValidPlan(p) && Run(p, acts).Some? && i < |Run(p, acts).value.log|
    requires var e := Run(p, acts).value.log[i];
      && (e.Wrote? || e.Queued?) && e.task.Build? && !Seed(p, e.task.id)
    ensures var log := Run(p, acts).value.log;
      && Parent(p, log[i].task.id).Some?
      && Wrote(Build(Parent(p, log[i].task.id).value), Built) in log[..i]
  {
    hide Run, Typed, Counted, Tallied, PollSound, TriesSound, StatusSound, ExclusionKept, Launching;
    RunInv(p, acts);
    var log := Run(p, acts).value.log;
    var t := log[i].task;
    assert Caused(p, log[..i], log[i]);
    var j := i;
    if log[i].Wrote? {
      j := InPrefix(log, i, Queued(t));
    }
    hide Inv;
    QueuedAfterParent(p, log, j);
    assert log[..j] <= log[..i];
    assert forall e :: e in log[..j] ==> e in log[..i];
  }

  lemma QueuedAfterParent(p: Plan, log: seq<Event>, j: nat)
    requires Causal(p, log) && j < |log| && log[j].Queued? && log[j].task.Build? && !Seed(p, log[j].task.id)
    ensures Parent(p, log[j].task.id).Some?
    ensures Wrote(Build(Parent(p, log[j].task.id).value), Built) in log[..j]
  {
    assert Caused(p, log[..j], log[j]);
    var k := InPrefix(log, j, Expanded(Build(Parent(p, log[j].task.id).value)));
    assert Caused(p, log[..k], log[k]);
    assert log[..k] <= log[..j];
    assert forall e :: e in log[..k] ==> e in log[..j];
  }

  // ---------------------------------------------------------------- the drain test

  /** No task is queued, held by a worker, or about to be queued. */
  ghost predicate NoTaskLeft(s: State) {
    && (forall t <- s.build.items + s.push.items :: t.Tomb?)
    && (forall i :: 0 <= i < |s.workers| ==> !s.workers[i].pc.On?)
  }

  lemma {:induction false} QuietLater(p: Plan, acts: seq<Action>, more: seq<Action>, both: bool)
    requires ValidPlan(p) && Run(p, acts + more).Some? && Run(p, acts).Some?
    requires Quiet(Run(p, acts).value, BuildPool) && (both ==> Quiet(Run(p, acts).value, PushPool))
    ensures Quiet(Run(p, acts + more).value, BuildPool) && (both ==> Quiet(Run(p, acts + more).value, PushPool))
  {
    hide Step, Enabled, Quiet, Start, ValidPlan;
    if more == [] {
      assert acts + more == acts;
    } else {
      var n := |more| - 1;
      assert (acts + more)[..|acts + more| - 1] == acts + more[..n];
      QuietLater(p, acts, more[..n], both);
      RunInv(p, acts + more[..n]);
      QuietStep(p, Run(p, acts + more[..n]).value, more[n]);
    }
  }

  lemma QuietMeansNoTask(s: State)
    requires Quiet(s, BuildPool) && Quiet(s, PushPool)
    ensures NoTaskLeft(s)
  {
    forall i | 0 <= i < |s.workers| ensures !s.workers[i].pc.On? {
      QuietIdle(s, s.workers[i].pool, i);
    }
    assert Items(s, BuildPool) == s.build.items && Items(s, PushPool) == s.push.items;
  }

  /**
   * The test is sound although its two reads are at different moments: if the build
   * counter was zero once and the push counter is zero later, and no tombstone had
   * been put, then no task is left at the second read or at any time after it.
   */
  lemma TwoReads(p: Plan, acts: seq<Action>, more: seq<Action>, rest: seq<Action>)
    requires ValidPlan(p) && Run(p, acts + more + rest).Some?
    requires Run(p, acts).Some? && Run(p, acts + more).Some?
    requires NoTombYet(Run(p, acts).value.main, BuildPool) && Run(p, acts).value.build.unfinished == 0
    requires NoTombYet(Run(p, acts + more).value.main, PushPool) && Run(p, acts + more).value.push.unfinished == 0
    ensures NoTaskLeft(Run(p, acts + more).value) && NoTaskLeft(Run(p, acts + more + rest).value)
  {
    RunInv(p, acts);
    RunInv(p, acts + more);
    hide Run, Quiet, Tallied, ValidPlan, Typed, Counted, TriesSound, StatusSound, Causal, ExclusionKept, NoTaskLeft;
    ZeroIsQuiet(Run(p, acts).value, BuildPool);
    QuietLater(p, acts, more, false);
    ZeroIsQuiet(Run(p, acts + more).value, PushPool);
    QuietLater(p, acts + more, rest, true);
    QuietMeansNoTask(Run(p, acts + more).value);
    QuietMeansNoTask(Run(p, acts + more + rest).value);
  }

  /** Once the main thread has left its polling loop, nothing is left to do, then or ever after. */
  lemma DrainIsFinal(p: Plan, acts: seq<Action>, more: seq<Action>)
    requires ValidPlan(p) && Run(p, acts).Some? && Run(p, acts + more).Some?
    requires SeenDrained(Run(p, acts).value.main)
    ensures NoTaskLeft(Run(p, acts).value) && NoTaskLeft(Run(p, acts + more).value)
  {
    RunInv(p, acts);
    hide Run, Quiet, Tallied, ValidPlan, Typed, Counted, TriesSound, StatusSound, Causal, ExclusionKept, NoTaskLeft;
    QuietMeansNoTask(Run(p, acts).value);
    QuietLater(p, acts, more, true);
    QuietMeansNoTask(Run(p, acts + more).value);
  }
}
