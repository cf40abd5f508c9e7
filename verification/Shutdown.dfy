/** The runs neither get stuck nor leave a thread behind, on the normal and on the interrupt path. */
module Shutdown {
  import opened Statuses
  import opened Attempts
  import opened Protocol
  import opened Counting
  import opened CountingSteps
  import opened Drain
  import opened StatusHistory
  import opened StatusFacts
  import opened Scheduler
  import opened Runs
  import opened Termination

  /** A tombstone of the pool is in its queue, or held by a worker about to put it back. */
  ghost predicate TombAlive(s: State, pool: Pool) {
    || Tomb in Items(s, pool)
    || exists w :: 0 <= w < |s.workers| && s.workers[w].pool == pool && s.workers[w].pc.Reput?
  }

  ghost predicate Safe(s: State) {
    && (forall pool: Pool :: TombDue(s.main, pool) ==> TombAlive(s, pool))
    && (forall w :: 0 <= w < |s.workers| && NoTombYet(s.main, s.workers[w].pool) ==> !s.workers[w].pc.Stopped?)
  }

  lemma TombKept(p: Plan, s: State, w: nat, o: Oracle, pool: Pool)
    requires CanStep(s, w) && TombAlive(s, pool)
    ensures TombAlive(WorkerStep(p, s, w, o), pool)
  {
    var me := s.workers[w];
    var s' := WorkerStep(p, s, w, o);
    WorkerFrame(p, s, w, o);
    if me.pc.Reput? && me.pool == pool {
      assert Items(s', pool) == Items(s, pool) + [Tomb];
      assert Items(s', pool)[|Items(s, pool)|] == Tomb;
    } else if Tomb in Items(s, pool) {
      ItemsKept(p, s, w, o, pool);
    } else {
      var v :| 0 <= v < |s.workers| && s.workers[v].pool == pool && s.workers[v].pc.Reput?;
      assert v != w && s'.workers[v] == s.workers[v];
    }
  }

  /** A worker step takes at most the first item of its own queue, and then holds it. */
  lemma ItemsKept(p: Plan, s: State, w: nat, o: Oracle, pool: Pool)
    requires CanStep(s, w) && Tomb in Items(s, pool)
    ensures Tomb in Items(WorkerStep(p, s, w, o), pool)
         || (s.workers[w].pool == pool && WorkerStep(p, s, w, o).workers[w].pc.Reput?)
  {
    var me := s.workers[w];
    var s' := WorkerStep(p, s, w, o);
    var items := Items(s, pool);
    var i :| 0 <= i < |items| && items[i] == Tomb;
    if me.pc.Waiting? && me.pool == pool {
      if i > 0 { assert Items(s', pool)[i - 1] == Tomb; }
    } else {
      assert |items| <= |Items(s', pool)| && Items(s', pool)[..|items|] == items;
      assert Items(s', pool)[i] == Tomb;
    }
  }

  lemma SafeWork(p: Plan, s: State, w: nat, o: Oracle)
    requires Launching(s) && PollSound(s) && Safe(s) && CanStep(s, w)
    ensures Safe(WorkerStep(p, s, w, o))
  {
    var s' := WorkerStep(p, s, w, o);
    WorkerFrame(p, s, w, o);
    forall pool: Pool | TombDue(s.main, pool) ensures TombAlive(s', pool) { TombKept(p, s, w, o, pool); }
    StopNeedsTomb(p, s, w, o);
    assert NoTombYet(s.main, s.workers[w].pool) ==> TombFree(s, s.workers[w].pool);
    hide WorkerStep, TombAlive, N;
  }

  lemma SafeMain(p: Plan, s: State, a: Action)
    requires Enabled(s, a) && !a.Work? && Launching(s) && Safe(s)
    ensures Safe(Step(p, s, a))
  {
    var s' := Step(p, s, a);
    MainFrame(p, s, a);
    forall pool: Pool | TombDue(s'.main, pool) ensures TombAlive(s', pool) {
      if TombDue(s.main, pool) {
        TombSurvives(p, s, a, pool);
      } else {
        assert Items(s', pool) == Items(s, pool) + [Tomb];
        assert Items(s', pool)[|Items(s, pool)|] == Tomb;
      }
    }
    assert forall pool: Pool :: NoTombYet(s'.main, pool) ==> NoTombYet(s.main, pool);
    hide Step, TombAlive;
  }

  lemma {:induction false} RunSafe(p: Plan, acts: seq<Action>)
    requires ValidPlan(p) && Run(p, acts).Some?
    ensures Safe(Run(p, acts).value)
  {
    if acts != [] {
      var n := |acts| - 1;
      RunSafe(p, acts[..n]);
      RunInv(p, acts[..n]);
      var s := Run(p, acts[..n]).value;
      InvParts(p, s);
      hide Safe, Inv, WorkerStep, MainStep, Start;
      if acts[n].Work? {
        SafeWork(p, s, acts[n].w, acts[n].oracle);
      } else {
        SafeMain(p, s, acts[n]);
      }
    }
  }

  lemma InvParts(p: Plan, s: State)
    requires Inv(p, s)
    ensures Launching(s) && PollSound(s) && Typed(p, s)
  {
  }

  lemma StopNeedsTomb(p: Plan, s: State, w: nat, o: Oracle)
    requires CanStep(s, w)
    ensures WorkerStep(p, s, w, o).workers[w].pc.Stopped? ==> s.workers[w].pc.Reput? || s.workers[w].stop
  {
  }

  lemma TombSurvives(p: Plan, s: State, a: Action, pool: Pool)
    requires Enabled(s, a) && !a.Work? && Launching(s) && TombAlive(s, pool)
    ensures TombAlive(Step(p, s, a), pool)
  {
    var s' := Step(p, s, a);
    MainFrame(p, s, a);
    hide Step;
    if Tomb in Items(s, pool) {
      assert Tomb in Items(s', pool);
    } else {
      var v :| 0 <= v < |s.workers| && s.workers[v].pool == pool && s.workers[v].pc.Reput?;
      assert s'.workers[v].pc.Reput?;
    }
  }

  // ---------------------------------------------------------------- no deadlock

  /** The tombstone stays: once put it is in the queue or in the hands of a worker about to put it back. */
  lemma TombStays(p: Plan, acts: seq<Action>, pool: Pool)
    requires ValidPlan(p) && Run(p, acts).Some? && TombDue(Run(p, acts).value.main, pool)
    ensures TombAlive(Run(p, acts).value, pool)
  {
    hide Run;
    RunSafe(p, acts);
  }

  predicate Started(w: Worker) { !w.pc.NotStarted? }

  /** While a started worker is not stopped, some worker can take a step once the tombstones are put. */
  lemma NoDeadlock(p: Plan, acts: seq<Action>, i: nat)
    requires ValidPlan(p) && Run(p, acts).Some? && Run(p, acts).value.main.Joining?
    requires i < |Run(p, acts).value.workers|
    requires Started(Run(p, acts).value.workers[i]) && !Run(p, acts).value.workers[i].pc.Stopped?
    ensures exists w :: CanStep(Run(p, acts).value, w)
  {
    hide Run;
    RunSafe(p, acts);
    var s := Run(p, acts).value;
    var pool := s.workers[i].pool;
    assert TombAlive(s, pool);
    if CanStep(s, i) {
    } else {
      assert Items(s, pool) == [];
      var v :| 0 <= v < |s.workers| && s.workers[v].pool == pool && s.workers[v].pc.Reput?;
      assert CanStep(s, v);
    }
  }

  /** When no worker can move any more after the tombstones, every started worker has stopped. */
  lemma AllStop(p: Plan, acts: seq<Action>)
    requires ValidPlan(p) && Run(p, acts).Some? && Run(p, acts).value.main.Joining?
    requires forall w :: !CanStep(Run(p, acts).value, w)
    ensures forall i :: 0 <= i < |Run(p, acts).value.workers| && Started(Run(p, acts).value.workers[i]) ==>
      Run(p, acts).value.workers[i].pc.Stopped?
    ensures !Run(p, acts).value.main.interrupted ==>
      forall i :: 0 <= i < |Run(p, acts).value.workers| ==> Run(p, acts).value.workers[i].pc.Stopped?
  {
    hide Run, CanStep;
    var s := Run(p, acts).value;
    forall i | 0 <= i < |s.workers| && Started(s.workers[i]) ensures s.workers[i].pc.Stopped? {
      if !s.workers[i].pc.Stopped? { NoDeadlock(p, acts, i); }
    }
    RunInv(p, acts);
    InvParts(p, s);
  }

  /** While tasks are left and the main thread polls, some worker can take a step. */
  lemma Progress(p: Plan, acts: seq<Action>)
    requires ValidPlan(p) && Run(p, acts).Some?
    requires Run(p, acts).value.main.PollBuild? || Run(p, acts).value.main.PollPush?
    requires !NoTaskLeft(Run(p, acts).value)
    ensures exists w :: CanStep(Run(p, acts).value, w)
  {
    hide Run;
    RunSafe(p, acts);
    RunInv(p, acts);
    var s := Run(p, acts).value;
    InvParts(p, s);
    if i :| 0 <= i < |s.workers| && s.workers[i].pc.On? {
      assert CanStep(s, i);
    } else {
      var pool := if s.build.items != [] then BuildPool else PushPool;
      var w := if s.build.items != [] then 0 else p.builders;
      assert s.workers[w].pool == pool && Items(s, pool) != [];
      assert NoTombYet(s.main, pool) && !s.workers[w].pc.Stopped?;
      assert CanStep(s, w);
    }
  }

  // ---------------------------------------------------------------- the polling loop can be left

  /** The counter of a pool in which nothing is queued or running, before its tombstone, is zero. */
  lemma ZeroWhenIdle(s: State, pool: Pool)
    requires NoTaskLeft(s) && Tallied(s, pool) && TombFree(s, pool)
    ensures QueueOf(s, pool).unfinished == 0
  {
    SumZero(BusyIn(pool), s.workers);
    OnlyTombs(Items(s, pool));
    assert Items(s, BuildPool) == s.build.items && Items(s, PushPool) == s.push.items;
    hide Count, Sum;
  }

  lemma {:induction false} OnlyTombs(ts: seq<Task>)
    requires forall t <- ts :: t.Tomb?
    ensures Count(ts, Tomb) == |ts|
  {
    if ts != [] {
      OnlyTombs(ts[..|ts| - 1]);
      assert ts[|ts| - 1] in ts;
    }
  }

  predicate Polling(s: State) { s.main.PollBuild? || s.main.PollPush? }

  /** When no worker can step while the main thread polls, both counters are zero, and its next reads end the loop. */
  lemma PollingEnds(p: Plan, acts: seq<Action>)
    requires ValidPlan(p) && Run(p, acts).Some? && Polling(Run(p, acts).value)
    requires forall w :: !CanStep(Run(p, acts).value, w)
    ensures var s := Run(p, acts).value;
      && s.build.unfinished == 0 && s.push.unfinished == 0
      && (var left := Run(p, acts + if s.main.PollBuild? then [Main, Main] else [Main]);
          left.Some? && left.value.main.TombPush?)
  {
    hide Run, NoTaskLeft, Tallied, TombFree;
    var s := Run(p, acts).value;
    if !NoTaskLeft(s) {
      Progress(p, acts);
    }
    RunInv(p, acts);
    InvParts(p, s);
    assert TombFree(s, BuildPool) && TombFree(s, PushPool);
    InvTallied(p, s);
    ZeroWhenIdle(s, BuildPool);
    ZeroWhenIdle(s, PushPool);
    RunOn(p, acts, Main);
    if s.main.PollBuild? {
      RunOn(p, acts + [Main], Main);
      assert acts + [Main] + [Main] == acts + [Main, Main];
    }
  }

  lemma InvTallied(p: Plan, s: State)
    requires Inv(p, s)
    ensures Tallied(s, BuildPool) && Tallied(s, PushPool)
  {
  }

  /** One more action. */
  lemma RunOn(p: Plan, acts: seq<Action>, a: Action)
    requires Run(p, acts).Some? && Enabled(Run(p, acts).value, a)
    ensures Run(p, acts + [a]) == Some(Step(p, Run(p, acts).value, a))
  {
    hide Step, Enabled, Start;
    assert (acts + [a])[..|acts|] == acts;
  }

  /**
   * From every reachable state of the polling loop the run can be continued so that it ends
   * drained: let workers step as long as one can, which is only finitely often, then read the counters.
   */
  lemma {:induction false} CanDrain(p: Plan, acts: seq<Action>, o: Oracle) returns (more: seq<Action>)
    requires ValidPlan(p) && Run(p, acts).Some? && Polling(Run(p, acts).value)
    ensures Run(p, acts + more).Some? && Run(p, acts + more).value.main.TombPush?
    decreases Measure(p, Run(p, acts).value)
  {
    hide Run, Inv, ValidPlan, Measure, CanStep, WorkerStep;
    var s := Run(p, acts).value;
    RunInv(p, acts);
    if w :| CanStep(s, w) {
      MeasureWork(p, s, w, o);
      WorkerFrame(p, s, w, o);
      RunOn(p, acts, Work(w, o));
      var rest := CanDrain(p, acts + [Work(w, o)], o);
      more := [Work(w, o)] + rest;
      assert acts + more == acts + [Work(w, o)] + rest;
    } else {
      PollingEnds(p, acts);
      more := if s.main.PollBuild? then [Main, Main] else [Main];
    }
  }

  // ---------------------------------------------------------------- told to stop

  /** How many items the worker takes from its queue during `more`, after `acts`. */
  function Takes(p: Plan, acts: seq<Action>, more: seq<Action>, w: nat): nat {
    if more == [] then 0
    else
      var n := |more| - 1;
      var s := Run(p, acts + more[..n]);
      Takes(p, acts, more[..n], w)
      + Bit(more[n].Work? && more[n].w == w && s.Some? && w < |s.value.workers| && s.value.workers[w].pc.Waiting?)
  }

  /** How many attempts the worker begins during `more`, after `acts`. */
  function Begins(p: Plan, acts: seq<Action>, more: seq<Action>, w: nat): nat {
    if more == [] then 0
    else
      var n := |more| - 1;
      var s, s' := Run(p, acts + more[..n]), Run(p, acts + more);
      Begins(p, acts, more[..n], w)
      + Bit(more[n].Work? && more[n].w == w && s'.Some? && w < |s'.value.workers| && s'.value.workers[w].pc.On?
            && s'.value.workers[w].pc.phase.Began?)
  }

  predicate ToldToStop(s: State, w: nat) { w < |s.workers| && s.workers[w].stop }

  /** The worker is evaluating or queuing followups. */
  predicate Expanding(pc: Pc) { pc.On? && (pc.phase.Collecting? || pc.phase.Putting?) }

  /** A worker that has been told to stop does not begin to follow up its task. */
  lemma StopExpands(p: Plan, s: State, a: Action, w: nat)
    requires Enabled(s, a) && ToldToStop(s, w) && !Expanding(s.workers[w].pc)
    ensures w < |Step(p, s, a).workers| && !Expanding(Step(p, s, a).workers[w].pc)
  {
    if a.Work? {
      WorkerFrame(p, s, a.w, a.oracle);
      if a.w == w && s.workers[w].pc.On? {
        StoppedTask(p, s, w, a.oracle);
      }
    }
    hide TaskStep;
    if a.Work? && a.w != w { hide WorkerStep; }
  }

  lemma StoppedTask(p: Plan, s: State, w: nat, o: Oracle)
    requires CanStep(s, w) && ToldToStop(s, w) && s.workers[w].pc.On? && !Expanding(s.workers[w].pc)
    ensures w < |WorkerStep(p, s, w, o).workers| && !Expanding(WorkerStep(p, s, w, o).workers[w].pc)
  {
    hide BuildAttempt, Succeeds, Children, FirstFollowups, Written, At, PushWrite, Excluded, IsError, Parent, QueueOf;
  }

  lemma StopStays(p: Plan, s: State, a: Action, w: nat)
    requires Enabled(s, a) && ToldToStop(s, w) && WellTyped(p, s.workers[w])
    ensures var s' := Step(p, s, a);
      && ToldToStop(s', w)
      && (a.Work? && a.w == w ==>
            && !s'.workers[w].pc.Waiting?
            && !(s'.workers[w].pc.On? && s'.workers[w].pc.phase.Began?))
      && (!(a.Work? && a.w == w) && s'.workers[w].pc.Waiting? ==> s.workers[w].pc.Waiting?)
  {
    if a.Work? { WorkerFrame(p, s, a.w, a.oracle); }
    if a.Work? && a.w != w { hide WorkerStep; }
  }

  /**
   * A worker that has been told to stop takes at most one more item from its queue, and
   * none unless it was already waiting for one; it begins no further attempt, and it follows up no
   * task unless it was already at it.
   */
  lemma {:induction false} AtMostOneMore(p: Plan, acts: seq<Action>, more: seq<Action>, w: nat)
    requires ValidPlan(p) && Run(p, acts).Some? && Run(p, acts + more).Some? && ToldToStop(Run(p, acts).value, w)
    ensures ToldToStop(Run(p, acts + more).value, w)
    ensures Takes(p, acts, more, w) + Bit(Run(p, acts + more).value.workers[w].pc.Waiting?)
         <= Bit(Run(p, acts).value.workers[w].pc.Waiting?)
    ensures Begins(p, acts, more, w) == 0
    ensures !Expanding(Run(p, acts).value.workers[w].pc) ==> !Expanding(Run(p, acts + more).value.workers[w].pc)
  {
    if more == [] {
      hide Inv, Step, Start;
      assert acts + more == acts;
    } else {
      hide Step, Inv, Launching, Typed, Counted, ValidPlan, Start, Run;
      var n := |more| - 1;
      RunBefore(p, acts, more);
      AtMostOneMore(p, acts, more[..n], w);
      var s := Run(p, acts + more[..n]).value;
      RunInv(p, acts + more[..n]);
      InvParts(p, s);
      StopStays(p, s, more[n], w);
      if !Expanding(s.workers[w].pc) { StopExpands(p, s, more[n], w); }
    }
  }

  /** The last action of a run. */
  lemma RunBefore(p: Plan, acts: seq<Action>, more: seq<Action>)
    requires more != [] && Run(p, acts + more).Some?
    ensures var before, a := Run(p, acts + more[..|more| - 1]), more[|more| - 1];
      before.Some? && Enabled(before.value, a) && Run(p, acts + more) == Some(Step(p, before.value, a))
  {
    hide Step, Enabled, Start;
    var n := |more| - 1;
    assert (acts + more)[..|acts + more| - 1] == acts + more[..n];
    assert (acts + more)[|acts + more| - 1] == more[n];
  }
}
