/** Every schedule is finite but for polling: a measure that each worker step decreases. */
module Termination {
  import opened Statuses
  import opened Attempts
  import opened Protocol
  import opened Counting
  import opened CountingSteps
  import opened Drain
  import opened StatusHistory
  import opened StatusFacts
  import opened Scheduler

  /** What an attempt of the task costs at most; a transfer hands on the cost of a push. */
  function AttemptCost(p: Plan, t: Task): nat {
    if t.Transfer? then 8 + Weight(p, Push(t.id)) else 8
  }

  /** What is left to do for the task behind the attempt loop, its children not counted. */
  function TailCost(p: Plan, t: Task): nat {
    if t.Build? then 8 + Weight(p, Transfer(t.id)) else 7
  }

  /** The cost of a task that waits in a queue. */
  function Weight(p: Plan, t: Task): nat
    decreases if t.Build? then 3 else if t.Transfer? then 2 else 1, 1
  {
    match t
    case Tomb => 0
    case Push(_) => (p.retries + 1) * 8 + 7
    case Transfer(x) => (p.retries + 1) * (8 + Weight(p, Push(x))) + 7
    case Build(x) => (p.retries + 1) * 8 + 8 + Weight(p, Transfer(x))
  }

  function Remaining(p: Plan, k: nat): nat { if k <= p.retries + 1 then p.retries + 1 - k else 0 }

  function ItemsCost(p: Plan, ts: seq<Task>): nat {
    if ts == [] then 0 else ItemsCost(p, ts[..|ts| - 1]) + Weight(p, ts[|ts| - 1])
  }

  function BuildCost(p: Plan): nat { 2 + Weight(p, Build(0)) }

  function PhaseCost(p: Plan, t: Task, ph: Phase): int {
    match ph
    case Trying(k) => Remaining(p, k) * AttemptCost(p, t) + 1 + TailCost(p, t)
    case Began(k) => Remaining(p, k) * AttemptCost(p, t) + TailCost(p, t)
    case Guarding(k) => Remaining(p, k) * AttemptCost(p, t) - 1 + TailCost(p, t)
    case Writing(k, ws, _) => (Remaining(p, k) - 1) * AttemptCost(p, t) + 2 + |ws| + TailCost(p, t)
    case Tried(_) => TailCost(p, t)
    case Collecting(todo, found) => 6 + |todo| * BuildCost(p) + |found| + ItemsCost(p, found)
    case Putting(rest) => 5 + |rest| + ItemsCost(p, rest)
    case Closing => 4
  }

  function WorkerCost(p: Plan, pc: Pc): nat {
    match pc
    case NotStarted => 3
    case Idle => 3
    case Waiting => 2
    case Reput => 1
    case Stopped => 0
    case On(t, ph) => if PhaseCost(p, t, ph) >= 0 then PhaseCost(p, t, ph) else 0
  }

  function CostOf(p: Plan): Worker -> nat { (w: Worker) => WorkerCost(p, w.pc) }

  /** The cost of the children of images whose followups are not yet collected. */
  function Unexpanded(p: Plan, log: seq<Event>, n: nat): nat {
    if n == 0 then 0
    else Unexpanded(p, log, n - 1)
         + (if Expanded(Build(n - 1)) in log then 0 else |Children(p, n - 1)| * BuildCost(p))
  }

  /** An upper bound on the number of worker steps still to come. */
  function Measure(p: Plan, s: State): nat {
    Sum(CostOf(p), s.workers) + ItemsCost(p, s.build.items) + ItemsCost(p, s.push.items)
    + Unexpanded(p, s.log, |p.parent|)
  }

  lemma {:induction false} ItemsSnoc(p: Plan, ts: seq<Task>, t: Task)
    ensures ItemsCost(p, ts + [t]) == ItemsCost(p, ts) + Weight(p, t)
  {
    assert (ts + [t])[..|ts|] == ts;
  }

  lemma {:induction false} ItemsHead(p: Plan, ts: seq<Task>)
    requires ts != []
    ensures ItemsCost(p, ts) == Weight(p, ts[0]) + ItemsCost(p, ts[1..])
  {
    var n := |ts| - 1;
    if n > 0 {
      ItemsHead(p, ts[..n]);
      assert ts[1..] == ts[..n][1..] + [ts[n]];
      ItemsSnoc(p, ts[..n][1..], ts[n]);
    } else {
      assert ts[1..] == [] && ts[..0] == [];
    }
    hide Weight;
  }

  lemma {:induction false} UnexpandedSnoc(p: Plan, log: seq<Event>, e: Event, n: nat)
    ensures Unexpanded(p, log + [e], n)
         + (if e.Expanded? && e.task.Build? && e.task.id < n && e !in log then |Children(p, e.task.id)| * BuildCost(p) else 0)
         == Unexpanded(p, log, n)
  {
    if n > 0 {
      UnexpandedSnoc(p, log, e, n - 1);
    }
    hide Weight, BuildCost;
  }

  lemma WeightIsUniform(p: Plan, x: Id)
    ensures Weight(p, Build(x)) == BuildCost(p) - 2
  {
    assert Weight(p, Transfer(x)) == Weight(p, Transfer(0)) by {
      assert Weight(p, Push(x)) == Weight(p, Push(0));
    }
  }

  /** The cost of a task just taken is what it cost in the queue, and one more. */
  lemma TakenCost(p: Plan, t: Task)
    requires !t.Tomb?
    ensures PhaseCost(p, t, Trying(0)) == Weight(p, t) + 1
  {
  }

  lemma OneAttemptLess(p: Plan, k: nat, a: nat)
    requires k <= p.retries
    ensures Remaining(p, k) >= 1 && (Remaining(p, k) - 1) * a == Remaining(p, k) * a - a
    ensures Remaining(p, k + 1) == Remaining(p, k) - 1
    ensures (Remaining(p, k) - 1) * a >= 0
  {
  }

  lemma NonNegative(p: Plan, k: nat, a: nat)
    ensures Remaining(p, k) * a >= 0
  {
  }

  /** The attempt loop: each step costs one, a transfer's step also pays for the push task it queues. */
  lemma LoopDecreases(p: Plan, s: State, w: nat, o: Oracle)
    requires CanStep(s, w) && s.workers[w].pc.On? && WellTyped(p, s.workers[w]) && TriesAt(p, s, s.workers[w].pc)
    requires !Decided(s.workers[w].pc.phase) && !s.workers[w].pc.phase.Tried?
    ensures
      var pc, pc' := s.workers[w].pc, WorkerStep(p, s, w, o).workers[w].pc;
      var handed := if pc.task.Transfer? && pc.phase.Began? then Weight(p, Push(pc.task.id)) else 0;
      WorkerCost(p, pc') + handed < WorkerCost(p, pc)
  {
    var t, ph := s.workers[w].pc.task, s.workers[w].pc.phase;
    var a := AttemptCost(p, t);
    NonNegative(p, ph.tries, a);
    NonNegative(p, ph.tries + 1, a);
    if ph.tries <= p.retries { OneAttemptLess(p, ph.tries, a); }
    if ph.Guarding? {
      GuardDecreases(p, s, w, o);
    } else if ph.Writing? {
      WriteDecreases(p, s, w, o);
    } else {
      TryDecreases(p, s, w, o);
    }
    hide WorkerStep, WorkerCost, Weight, Remaining, AttemptCost, TailCost, TypedPhase;
  }

  lemma GuardDecreases(p: Plan, s: State, w: nat, o: Oracle)
    requires CanStep(s, w) && s.workers[w].pc.On? && s.workers[w].pc.phase.Guarding? && WellTyped(p, s.workers[w])
    ensures WorkerCost(p, WorkerStep(p, s, w, o).workers[w].pc) < WorkerCost(p, s.workers[w].pc)
  {
    assert |BuildAttempt(o.env).writes| <= 3;
    hide BuildAttempt, Weight, Remaining, TailCost, At, Parent;
  }

  lemma WriteDecreases(p: Plan, s: State, w: nat, o: Oracle)
    requires CanStep(s, w) && s.workers[w].pc.On? && s.workers[w].pc.phase.Writing? && WellTyped(p, s.workers[w])
    requires TriesAt(p, s, s.workers[w].pc)
    ensures WorkerCost(p, WorkerStep(p, s, w, o).workers[w].pc) < WorkerCost(p, s.workers[w].pc)
  {
    hide Weight, Remaining, TailCost, Succeeds, Written, AttemptCost, Tries;
    var k, a := s.workers[w].pc.phase.tries, AttemptCost(p, s.workers[w].pc.task);
    NonNegative(p, k, a);
    OneAttemptLess(p, k, a);
  }

  lemma TryDecreases(p: Plan, s: State, w: nat, o: Oracle)
    requires CanStep(s, w) && s.workers[w].pc.On? && WellTyped(p, s.workers[w]) && TriesAt(p, s, s.workers[w].pc)
    requires s.workers[w].pc.phase.Trying? || s.workers[w].pc.phase.Began?
    ensures
      var pc, pc' := s.workers[w].pc, WorkerStep(p, s, w, o).workers[w].pc;
      var handed := if pc.task.Transfer? && pc.phase.Began? then Weight(p, Push(pc.task.id)) else 0;
      WorkerCost(p, pc') + handed < WorkerCost(p, pc)
  {
    hide Remaining, At, Excluded, PushWrite, Tries;
    var k, a := s.workers[w].pc.phase.tries, AttemptCost(p, s.workers[w].pc.task);
    NonNegative(p, k, a);
    if k <= p.retries { OneAttemptLess(p, k, a); }
    hide Weight;
  }

  lemma CostMoves(p: Plan, s: State, s': State, w: nat)
    requires w < |s.workers| == |s'.workers| && s'.workers == s.workers[w := s'.workers[w]]
    ensures Sum(CostOf(p), s'.workers) + WorkerCost(p, s.workers[w].pc) == Sum(CostOf(p), s.workers) + WorkerCost(p, s'.workers[w].pc)
  {
    SumUpdate(CostOf(p), s.workers, w, s'.workers[w]);
  }

  /** The four parts of the measure after a step, from what the step does to them. */
  lemma PartsDecrease(p: Plan, s: State, s': State, w: nat)
    requires w < |s.workers| == |s'.workers| && s'.workers == s.workers[w := s'.workers[w]]
    requires WorkerCost(p, s'.workers[w].pc) + ItemsCost(p, s'.build.items) + ItemsCost(p, s'.push.items) + Unexpanded(p, s'.log, |p.parent|)
           < WorkerCost(p, s.workers[w].pc) + ItemsCost(p, s.build.items) + ItemsCost(p, s.push.items) + Unexpanded(p, s.log, |p.parent|)
    ensures Measure(p, s') < Measure(p, s)
  {
    CostMoves(p, s, s', w);
    hide WorkerCost, ItemsCost, Unexpanded, Sum;
  }

  lemma LogCost(p: Plan, s: State, s': State)
    requires s'.log == s.log || (|s'.log| == |s.log| + 1 && s'.log == s.log + [s'.log[|s.log|]])
    ensures Unexpanded(p, s'.log, |p.parent|) <= Unexpanded(p, s.log, |p.parent|)
  {
    if s'.log != s.log { UnexpandedSnoc(p, s.log, s'.log[|s.log|], |p.parent|); }
    hide BuildCost;
  }

  lemma DecreaseIdle(p: Plan, s: State, w: nat, o: Oracle)
    requires CanStep(s, w) && WellTyped(p, s.workers[w]) && !s.workers[w].pc.On?
    ensures Measure(p, WorkerStep(p, s, w, o)) < Measure(p, s)
  {
    hide ItemsCost, Unexpanded, Measure, Sum;
    var me := s.workers[w];
    var s' := WorkerStep(p, s, w, o);
    WorkerFrame(p, s, w, o);
    WorkerLogs(p, s, w, o);
    LogCost(p, s, s');
    match me.pc {
      case Waiting =>
        var items := QueueOf(s, me.pool).items;
        ItemsHead(p, items);
        if !items[0].Tomb? { TakenCost(p, items[0]); }
      case Reput => ItemsSnoc(p, QueueOf(s, me.pool).items, Tomb);
      case Idle =>
    }
    hide ItemsCost, Unexpanded, Measure, PhaseCost;
    PartsDecrease(p, s, s', w);
  }

  lemma DecreaseLoop(p: Plan, s: State, w: nat, o: Oracle)
    requires CanStep(s, w) && s.workers[w].pc.On? && WellTyped(p, s.workers[w]) && TriesAt(p, s, s.workers[w].pc)
    requires !Decided(s.workers[w].pc.phase) && !s.workers[w].pc.phase.Tried?
    ensures Measure(p, WorkerStep(p, s, w, o)) < Measure(p, s)
  {
    var me := s.workers[w];
    var t := me.pc.task;
    var s' := WorkerStep(p, s, w, o);
    WorkerFrame(p, s, w, o);
    WorkerLogs(p, s, w, o);
    LogCost(p, s, s');
    LoopDecreases(p, s, w, o);
    if t.Transfer? && me.pc.phase.Began? {
      ItemsSnoc(p, s.push.items, Push(t.id));
    }
    hide ItemsCost, Unexpanded, Measure, PhaseCost, WorkerCost;
    PartsDecrease(p, s, s', w);
  }

  /** Collecting a child costs what its build task will cost. */
  lemma CollectCost(p: Plan, t: Task, todo: seq<Id>, found: seq<Task>, more: seq<Task>)
    requires todo != [] && (more == [] || more == [Build(todo[0])])
    ensures WorkerCost(p, On(t, Collecting(todo[1..], found + more))) < WorkerCost(p, On(t, Collecting(todo, found)))
  {
    hide Weight, BuildCost, ItemsCost;
    ItemsSnoc(p, found, Build(todo[0]));
    WeightIsUniform(p, todo[0]);
    assert found + [] == found;
    OneLess(|todo|, BuildCost(p));
  }

  lemma OneLess(n: nat, c: nat)
    requires n > 0
    ensures n * c == (n - 1) * c + c && (n - 1) * c >= 0
  {
  }

  lemma DecreaseCollecting(p: Plan, s: State, w: nat, o: Oracle)
    requires CanStep(s, w) && s.workers[w].pc.On? && s.workers[w].pc.phase.Collecting?
    ensures Measure(p, WorkerStep(p, s, w, o)) < Measure(p, s)
  {
    var me := s.workers[w];
    var t, todo, found := me.pc.task, me.pc.phase.todo, me.pc.phase.found;
    var s' := WorkerStep(p, s, w, o);
    WorkerFrame(p, s, w, o);
    if todo != [] {
      CollectCost(p, t, todo, found, if Excluded(At(s.status, todo[0])) then [] else [Build(todo[0])]);
    } else {
      assert WorkerCost(p, On(t, Putting(found))) < WorkerCost(p, On(t, Collecting(todo, found)));
    }
    assert s'.log == s.log && s'.build == s.build && s'.push == s.push;
    hide WorkerStep, WorkerCost, ItemsCost, Unexpanded, Measure;
    PartsDecrease(p, s, s', w);
  }

  lemma DecreasePutting(p: Plan, s: State, w: nat, o: Oracle)
    requires CanStep(s, w) && s.workers[w].pc.On? && s.workers[w].pc.phase.Putting? && WellTyped(p, s.workers[w])
    ensures Measure(p, WorkerStep(p, s, w, o)) < Measure(p, s)
  {
    var me := s.workers[w];
    var t, rest := me.pc.task, me.pc.phase.rest;
    var s' := WorkerStep(p, s, w, o);
    WorkerFrame(p, s, w, o);
    WorkerLogs(p, s, w, o);
    LogCost(p, s, s');
    assert s'.push == s.push || me.pool.PushPool?;
    if rest != [] {
      ItemsHead(p, rest);
      ItemsSnoc(p, QueueOf(s, me.pool).items, rest[0]);
      assert WorkerCost(p, On(t, Putting(rest[1..]))) + Weight(p, rest[0]) < WorkerCost(p, me.pc);
    } else {
      assert WorkerCost(p, On(t, Closing)) < WorkerCost(p, me.pc);
    }
    hide WorkerCost, ItemsCost, Unexpanded, Measure, Weight, WellTyped;
    PartsDecrease(p, s, s', w);
  }

  lemma DecreaseClosing(p: Plan, s: State, w: nat, o: Oracle)
    requires CanStep(s, w) && s.workers[w].pc.On? && s.workers[w].pc.phase.Closing?
    ensures Measure(p, WorkerStep(p, s, w, o)) < Measure(p, s)
  {
    var s' := WorkerStep(p, s, w, o);
    WorkerFrame(p, s, w, o);
    UnexpandedSnoc(p, s.log, Closed(s.workers[w].pc.task), |p.parent|);
    assert WorkerCost(p, Idle) < WorkerCost(p, s.workers[w].pc);
    hide WorkerCost, ItemsCost, Unexpanded, Measure, Weight;
    PartsDecrease(p, s, s', w);
  }

  /** Expanding a task moves the cost of its children from the pool to the worker. */
  lemma ExpandCost(p: Plan, t: Task)
    requires !t.Tomb?
    ensures WorkerCost(p, On(t, Collecting(FirstTodo(p, t), FirstFollowups(p, t))))
          < WorkerCost(p, On(t, Tried(true))) + (if t.Build? then |Children(p, t.id)| * BuildCost(p) else 0)
    ensures WorkerCost(p, On(t, Closing)) < WorkerCost(p, On(t, Tried(true)))
    ensures WorkerCost(p, On(t, Tried(false))) == WorkerCost(p, On(t, Tried(true)))
  {
    ItemsSnoc(p, [], Transfer(t.id));
    assert [] + [Transfer(t.id)] == [Transfer(t.id)];
    assert ItemsCost(p, []) == 0;
    hide ItemsCost, BuildCost, Weight;
    assert |FirstTodo(p, t)| * BuildCost(p) >= 0;
  }

  lemma DecreaseTried(p: Plan, s: State, w: nat, o: Oracle)
    requires Counted(p, s) && CanStep(s, w) && s.workers[w].pc.On? && WellTyped(p, s.workers[w])
    requires s.workers[w].pc.phase.Tried?
    ensures Measure(p, WorkerStep(p, s, w, o)) < Measure(p, s)
  {
    var me := s.workers[w];
    var t, ok := me.pc.task, me.pc.phase.success;
    var s' := WorkerStep(p, s, w, o);
    WorkerFrame(p, s, w, o);
    ExpandCost(p, t);
    assert Expanded(t) !in s.log by {
      HeldOnce(p, s, w);
      assert CountedFor(p, s, t);
      CountIn(s.log, Expanded(t));
    }
    var e := if ok && !me.stop then Expanded(t) else GaveUp(t, ok);
    UnexpandedSnoc(p, s.log, e, |p.parent|);
    assert s'.log == s.log + [e] && s'.build == s.build && s'.push == s.push;
    hide WorkerCost, ItemsCost, Unexpanded, Measure, Weight, BuildCost, Counted;
    PartsDecrease(p, s, s', w);
  }

  lemma MeasureWork(p: Plan, s: State, w: nat, o: Oracle)
    requires Inv(p, s) && CanStep(s, w)
    ensures Measure(p, WorkerStep(p, s, w, o)) < Measure(p, s)
  {
    assert WellTyped(p, s.workers[w]) && TriesAt(p, s, s.workers[w].pc);
    hide WorkerStep, Measure, Counted, Typed, TriesSound, StatusSound;
    if !s.workers[w].pc.On? {
      DecreaseIdle(p, s, w, o);
    } else if s.workers[w].pc.phase.Tried? {
      DecreaseTried(p, s, w, o);
    } else if Decided(s.workers[w].pc.phase) {
      match s.workers[w].pc.phase {
        case Collecting(_, _) => DecreaseCollecting(p, s, w, o);
        case Putting(_) => DecreasePutting(p, s, w, o);
        case Closing => DecreaseClosing(p, s, w, o);
      }
    } else {
      DecreaseLoop(p, s, w, o);
    }
  }

  lemma {:induction false} SumSameCost(p: Plan, ws: seq<Worker>, us: seq<Worker>)
    requires |ws| == |us| && forall i :: 0 <= i < |ws| ==> WorkerCost(p, ws[i].pc) == WorkerCost(p, us[i].pc)
    ensures Sum(CostOf(p), ws) == Sum(CostOf(p), us)
  {
    SumSame(CostOf(p), ws, us);
  }

  lemma TombCost(p: Plan, s: State, s': State, pool: Pool)
    requires Items(s', pool) == Items(s, pool) || Items(s', pool) == Items(s, pool) + [Tomb]
    ensures ItemsCost(p, Items(s', pool)) == ItemsCost(p, Items(s, pool))
  {
    ItemsSnoc(p, Items(s, pool), Tomb);
  }

  lemma MeasureMain(p: Plan, s: State, a: Action)
    requires Enabled(s, a) && !a.Work? && Launching(s)
    ensures Measure(p, Step(p, s, a)) == Measure(p, s)
  {
    var s' := Step(p, s, a);
    MainFrame(p, s, a);
    hide Step;
    SumSameCost(p, s.workers, s'.workers);
    TombCost(p, s, s', BuildPool);
    TombCost(p, s, s', PushPool);
    if s'.log != s.log {
      var pool :| s'.log == s.log + [TombPut(pool)];
      UnexpandedSnoc(p, s.log, TombPut(pool), |p.parent|);
    }
    hide ItemsCost, Unexpanded, Sum, WorkerCost;
  }

  /** The number of worker steps in a schedule. */
  function WorkSteps(acts: seq<Action>): nat {
    if acts == [] then 0 else WorkSteps(acts[..|acts| - 1]) + Bit(acts[|acts| - 1].Work?)
  }

  /** However the threads are scheduled, the workers take a bounded number of steps. */
  lemma {:induction false} BoundedWork(p: Plan, acts: seq<Action>)
    requires ValidPlan(p) && Run(p, acts).Some?
    ensures WorkSteps(acts) + Measure(p, Run(p, acts).value) <= Measure(p, Start(p))
  {
    hide Measure, Inv, Start, ValidPlan, WorkerStep, MainStep;
    if acts != [] {
      var n := |acts| - 1;
      BoundedWork(p, acts[..n]);
      RunInv(p, acts[..n]);
      var s := Run(p, acts[..n]).value;
      if acts[n].Work? {
        MeasureWork(p, s, acts[n].w, acts[n].oracle);
      } else {
        assert Launching(s) by { LaunchingFromInv(p, s); }
        MeasureMain(p, s, acts[n]);
      }
    }
  }

  lemma LaunchingFromInv(p: Plan, s: State)
    requires Inv(p, s)
    ensures Launching(s)
  {
  }

  lemma {:induction false} CostOfIdle(p: Plan, ws: seq<Worker>)
    requires forall i :: 0 <= i < |ws| ==> ws[i].pc.NotStarted?
    ensures Sum(CostOf(p), ws) == 3 * |ws|
  {
    if ws != [] { CostOfIdle(p, ws[..|ws| - 1]); }
  }

  /** The children lists of all images together. */
  function AllChildren(p: Plan, n: nat): nat {
    if n == 0 then 0 else AllChildren(p, n - 1) + |Children(p, n - 1)|
  }

  lemma {:induction false} UnexpandedAtStart(p: Plan, log: seq<Event>, n: nat)
    requires forall e <- log :: !e.Expanded?
    ensures Unexpanded(p, log, n) == AllChildren(p, n) * BuildCost(p)
  {
    hide BuildCost;
    if n > 0 {
      UnexpandedAtStart(p, log, n - 1);
      assert (AllChildren(p, n - 1) + |Children(p, n - 1)|) * BuildCost(p)
          == AllChildren(p, n - 1) * BuildCost(p) + |Children(p, n - 1)| * BuildCost(p);
    }
  }

  lemma {:induction false} SeedsCost(p: Plan, n: nat)
    ensures ItemsCost(p, Seeds(p, n)) == |Seeds(p, n)| * (BuildCost(p) - 2)
  {
    hide Weight, BuildCost, ItemsCost, Seed;
    if n == 0 {
      NoItems(p);
    } else {
      SeedsCost(p, n - 1);
      OneMoreSeed(p, Seeds(p, n - 1), Seed(p, n - 1), n - 1);
    }
  }

  lemma NoItems(p: Plan)
    ensures ItemsCost(p, []) == 0
  {
  }

  lemma OneMoreSeed(p: Plan, ts: seq<Task>, seed: bool, x: Id)
    requires ItemsCost(p, ts) == |ts| * (BuildCost(p) - 2)
    ensures var us := ts + (if seed then [Build(x)] else []);
      ItemsCost(p, us) == |us| * (BuildCost(p) - 2)
  {
    hide *;
    if seed {
      ItemsSnoc(p, ts, Build(x));
      WeightIsUniform(p, x);
      Times(|ts|, BuildCost(p) - 2);
    } else {
      assert ts + [] == ts;
    }
  }

  lemma Times(n: nat, c: int)
    ensures (n + 1) * c == n * c + c
  {
  }

  /** The bound in closed form: linear in the seeds, the children and the threads. */
  lemma StartMeasure(p: Plan)
    requires ValidPlan(p)
    ensures Measure(p, Start(p))
         == 3 * (p.builders + p.pushers)
          + |Seeds(p, |p.filtered|)| * (BuildCost(p) - 2)
          + AllChildren(p, |p.parent|) * BuildCost(p)
    ensures BuildCost(p) == (p.retries + 1) * (16 + (p.retries + 1) * 8 + 7) + 17
  {
    hide BuildCost, Seeds, Sum, Weight, WorkerCost;
    var s := Start(p);
    CostOfIdle(p, s.workers);
    SeedsCost(p, |p.filtered|);
    UnexpandedAtStart(p, s.log, |p.parent|);
    BuildCostIs(p);
  }

  lemma BuildCostIs(p: Plan)
    ensures BuildCost(p) == (p.retries + 1) * (16 + (p.retries + 1) * 8 + 7) + 17
  {
    assert Weight(p, Build(0)) == (p.retries + 1) * 8 + 8 + ((p.retries + 1) * (8 + ((p.retries + 1) * 8 + 7)) + 7);
    assert (p.retries + 1) * 8 + (p.retries + 1) * (8 + ((p.retries + 1) * 8 + 7)) == (p.retries + 1) * (16 + (p.retries + 1) * 8 + 7);
  }
}
