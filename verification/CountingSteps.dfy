/** Every step keeps the counts of `Counting`. */
module CountingSteps {
  import opened Statuses
  import opened Attempts
  import opened Protocol
  import opened Counting

  // ------------------------------------------------------------ well-typed states

  predicate TaskOf(p: Plan, pool: Pool, t: Task) {
    && !t.Tomb? && t.id < |p.parent|
    && (pool.PushPool? <==> t.Push?)
  }

  predicate FollowupOf(p: Plan, pool: Pool, t: Task) {
    && pool.BuildPool?
    && (t.Build? || t.Transfer?)
    && t.id < |p.parent|
  }

  /** The values that a task may write into the status of its image. */
  predicate WriteOf(t: Task, v: Status) {
    match t
    case Build(_) => v in {Building, Error, ConnectionError, Built, ParentError}
    case Push(_) => v in {Built, ConnectionError, PushError}
    case _ => false
  }

  predicate TypedPhase(p: Plan, pool: Pool, t: Task, ph: Phase) {
    match ph
    case Guarding(_) => t.Build?
    case Writing(_, ws, r) =>
      && (forall v <- ws :: WriteOf(t, v))
      && (t.Push? ==> |ws| <= 1)
      && (t.Transfer? ==> ws == [])
      && (r ==> t.Build?)
    case Collecting(todo, found) =>
      && (forall c <- todo :: c < |p.parent| && t.Build? && Parent(p, c) == Some(t.id))
      && (forall f <- found :: FollowupOf(p, pool, f))
    case Putting(rest) => forall f <- rest :: FollowupOf(p, pool, f)
    case _ => true
  }

  predicate WellTyped(p: Plan, w: Worker) {
    w.pc.On? ==> TaskOf(p, w.pool, w.pc.task) && TypedPhase(p, w.pool, w.pc.task, w.pc.phase)
  }

  ghost predicate Typed(p: Plan, s: State) {
    && |s.status| == |p.filtered|
    && |s.workers| == p.builders + p.pushers
    && (forall i :: 0 <= i < |s.workers| ==>
          && s.workers[i].pool == (if i < p.builders then BuildPool else PushPool)
          && WellTyped(p, s.workers[i]))
    && (forall t <- s.build.items :: t.Tomb? || TaskOf(p, BuildPool, t))
    && (forall t <- s.push.items :: t.Tomb? || TaskOf(p, PushPool, t))
  }

  lemma TypedPc(p: Plan, s: State, w: nat, o: Oracle)
    requires ValidPlan(p) && Typed(p, s) && CanStep(s, w)
    ensures WellTyped(p, WorkerStep(p, s, w, o).workers[w])
  {
    var me := s.workers[w];
    assert WellTyped(p, me);
    if me.pc.Waiting? {
      assert QueueOf(s, me.pool).items[0] in QueueOf(s, me.pool).items;
    } else if me.pc.On? {
      if me.pc.phase.Guarding? {
        GuardTyped(p, s, w, o);
      } else {
        PhaseTyped(p, s, w, o);
      }
    }
    hide TypedPhase;
  }

  lemma GuardTyped(p: Plan, s: State, w: nat, o: Oracle)
    requires CanStep(s, w) && WellTyped(p, s.workers[w]) && s.workers[w].pc.On? && s.workers[w].pc.phase.Guarding?
    ensures WellTyped(p, WorkerStep(p, s, w, o).workers[w])
  {
    assert forall v <- BuildAttempt(o.env).writes :: v in {Building, Error, ConnectionError, Built};
    hide BuildAttempt;
  }

  lemma CollectingTyped(p: Plan, s: State, w: nat, o: Oracle)
    requires CanStep(s, w) && WellTyped(p, s.workers[w]) && s.workers[w].pc.On? && s.workers[w].pc.phase.Collecting?
    ensures WellTyped(p, WorkerStep(p, s, w, o).workers[w])
  {
    var me := s.workers[w];
    var todo, found := me.pc.phase.todo, me.pc.phase.found;
    if todo != [] {
      assert todo[0] in todo;
      assert FollowupOf(p, me.pool, Build(todo[0]));
      assert forall f <- found + [Build(todo[0])] :: f in found || f == Build(todo[0]);
      assert forall c <- todo[1..] :: c in todo;
    }
  }

  lemma TriedTyped(p: Plan, s: State, w: nat, o: Oracle)
    requires ValidPlan(p) && CanStep(s, w) && WellTyped(p, s.workers[w]) && s.workers[w].pc.On? && s.workers[w].pc.phase.Tried?
    ensures WellTyped(p, WorkerStep(p, s, w, o).workers[w])
  {
    var t := s.workers[w].pc.task;
    if t.Build? {
      assert forall c <- Children(p, t.id) :: c < |p.parent| && Parent(p, c) == Some(t.id);
    }
    hide ValidPlan, IsError, Excluded;
  }

  lemma PhaseTyped(p: Plan, s: State, w: nat, o: Oracle)
    requires ValidPlan(p) && CanStep(s, w) && WellTyped(p, s.workers[w]) && s.workers[w].pc.On?
    requires !s.workers[w].pc.phase.Guarding?
    ensures WellTyped(p, WorkerStep(p, s, w, o).workers[w])
  {
    hide ValidPlan, WorkerStep, WellTyped;
    if s.workers[w].pc.phase.Collecting? {
      CollectingTyped(p, s, w, o);
    } else if s.workers[w].pc.phase.Tried? {
      TriedTyped(p, s, w, o);
    } else {
      OtherTyped(p, s, w, o);
    }
  }

  lemma OtherTyped(p: Plan, s: State, w: nat, o: Oracle)
    requires CanStep(s, w) && WellTyped(p, s.workers[w]) && s.workers[w].pc.On?
    requires !s.workers[w].pc.phase.Guarding? && !s.workers[w].pc.phase.Collecting? && !s.workers[w].pc.phase.Tried?
    ensures WellTyped(p, WorkerStep(p, s, w, o).workers[w])
  {
    hide Succeeds, Excluded, IsError, Parent, Children, At, Written;
    match s.workers[w].pc.phase {
      case Writing(_, ws, _) => assert forall v <- (if ws == [] then [] else ws[1..]) :: v in ws;
      case Putting(rest) => assert forall f <- (if rest == [] then [] else rest[1..]) :: f in rest;
      case _ =>
    }
  }

  lemma TypedQueues(p: Plan, s: State, w: nat, o: Oracle)
    requires ValidPlan(p) && Typed(p, s) && CanStep(s, w)
    ensures var s' := WorkerStep(p, s, w, o);
      && (forall t <- s'.build.items :: t.Tomb? || TaskOf(p, BuildPool, t))
      && (forall t <- s'.push.items :: t.Tomb? || TaskOf(p, PushPool, t))
  {
    var me := s.workers[w];
    assert WellTyped(p, me);
    if me.pc.On? && me.pc.phase.Putting? && me.pc.phase.rest != [] {
      assert FollowupOf(p, me.pool, me.pc.phase.rest[0]);
    }
  }

  lemma TaskFrame(p: Plan, s: State, w: nat, t: Task, ph: Phase, o: Oracle)
    requires w < |s.workers|
    ensures var s' := TaskStep(p, s, w, t, ph, o);
      && |s'.workers| == |s.workers|
      && s'.workers == s.workers[w := s.workers[w].(pc := s'.workers[w].pc)]
      && |s'.status| == |s.status|
      && s'.main == s.main
  {
  }

  lemma WorkerFrame(p: Plan, s: State, w: nat, o: Oracle)
    requires CanStep(s, w)
    ensures var s' := WorkerStep(p, s, w, o);
      && |s'.workers| == |s.workers|
      && s'.workers == s.workers[w := s.workers[w].(pc := s'.workers[w].pc)]
      && |s'.status| == |s.status|
      && s'.main == s.main
  {
    if s.workers[w].pc.On? {
      TaskFrame(p, s, w, s.workers[w].pc.task, s.workers[w].pc.phase, o);
      hide TaskStep;
    }
  }

  lemma TypedWork(p: Plan, s: State, w: nat, o: Oracle)
    requires ValidPlan(p) && Typed(p, s) && CanStep(s, w)
    ensures Typed(p, WorkerStep(p, s, w, o))
  {
    TypedPc(p, s, w, o);
    TypedQueues(p, s, w, o);
    WorkerFrame(p, s, w, o);
    hide WorkerStep, WellTyped;
  }

  lemma TypedStep(p: Plan, s: State, a: Action)
    requires ValidPlan(p) && Typed(p, s) && Enabled(s, a)
    ensures Typed(p, Step(p, s, a))
  {
    if a.Work? {
      TypedWork(p, s, a.w, a.oracle);
      hide WorkerStep;
    }
  }

  // ------------------------------------------------------------ counts

  /** The state after one worker moved and `ev` was logged. */
  predicate Moves(s: State, s': State, w: nat, ev: seq<Event>) {
    && w < |s.workers| == |s'.workers|
    && s'.workers == s.workers[w := s'.workers[w]]
    && s'.log == s.log + ev
  }

  lemma Moved(p: Plan, s: State, s': State, w: nat, ev: seq<Event>, r: Role, t: Task)
    requires Moves(s, s', w, ev)
    ensures G(p, s', r, t) + Part(p, s.workers[w].pc, r, t) == G(p, s, r, t) + Part(p, s'.workers[w].pc, r, t)
  {
    SumUpdate(RoleOf(p, r, t), s.workers, w, s'.workers[w]);
  }

  lemma Logged(s: State, s': State, w: nat, ev: seq<Event>, e: Event)
    requires Moves(s, s', w, ev)
    ensures N(s', e) == N(s, e) + Count(ev, e)
  {
    CountConcat(s.log, ev, e);
  }

  /** The change of `Due` that the events and the worker's move bring about. */
  function DueChange(p: Plan, old0: Pc, new0: Pc, ev: seq<Event>, t: Task): int {
    match t
    case Build(x) =>
      if !Eligible(p, x) || |p.parent| <= x || Seed(p, x) then 0
      else Count(ev, Expanded(Build(Parent(p, x).value)))
    case Transfer(x) => if p.push then Count(ev, Expanded(Build(x))) else 0
    case Push(x) =>
      Count(ev, Ended(Transfer(x), true)) + Part(p, new0, Mid, Transfer(x)) - Part(p, old0, Mid, Transfer(x))
    case Tomb => 0
  }

  /** A move from `old0` to `new0` logging `ev` and adding `dq` copies of `t` to the queues keeps the books of `t`. */
  predicate Balanced(p: Plan, old0: Pc, new0: Pc, ev: seq<Event>, dq: int, t: Task) {
    && Count(ev, Queued(t)) + Part(p, old0, Early, t) + Part(p, old0, Late, t)
       == dq + Part(p, new0, Early, t) + Part(p, new0, Late, t) + Count(ev, Closed(t))
    && Count(ev, Expanded(t)) + Count(ev, GaveUp(t, true)) + Count(ev, GaveUp(t, false)) + Part(p, old0, Late, t)
       == Part(p, new0, Late, t) + Count(ev, Closed(t))
    && Count(ev, Queued(t)) + Part(p, new0, Pending, t) - Part(p, old0, Pending, t) == DueChange(p, old0, new0, ev, t)
    && Count(ev, Ended(t, true)) + Part(p, old0, Won, t)
       == Part(p, new0, Won, t) + Count(ev, Expanded(t)) + Count(ev, GaveUp(t, true))
  }

  lemma DueMoves(p: Plan, s: State, s': State, w: nat, ev: seq<Event>, t: Task)
    requires Moves(s, s', w, ev)
    ensures Due(p, s', t) == Due(p, s, t) + DueChange(p, s.workers[w].pc, s'.workers[w].pc, ev, t)
  {
    match t {
      case Build(x) =>
        if Eligible(p, x) && !Seed(p, x) && x < |p.parent| {
          Logged(s, s', w, ev, Expanded(Build(Parent(p, x).value)));
        }
      case Transfer(x) => Logged(s, s', w, ev, Expanded(Build(x)));
      case Push(x) =>
        Logged(s, s', w, ev, Ended(Transfer(x), true));
        Moved(p, s, s', w, ev, Mid, Transfer(x));
      case Tomb =>
    }
  }

  /** The books stay balanced, as long as nothing becomes due twice. */
  lemma Rebalance(p: Plan, s: State, s': State, w: nat, ev: seq<Event>, t: Task)
    requires Moves(s, s', w, ev) && CountedFor(p, s, t)
    requires Balanced(p, s.workers[w].pc, s'.workers[w].pc, ev, InQueues(s', t) - InQueues(s, t), t)
    requires Due(p, s, t) + DueChange(p, s.workers[w].pc, s'.workers[w].pc, ev, t) <= 1
    ensures CountedFor(p, s', t)
  {
    hide Sum, Count, Part, Moves, InQueues;
    Moved(p, s, s', w, ev, Early, t);
    Moved(p, s, s', w, ev, Late, t);
    Moved(p, s, s', w, ev, Pending, t);
    Moved(p, s, s', w, ev, Mid, t);
    Moved(p, s, s', w, ev, Won, t);
    Logged(s, s', w, ev, Queued(t));
    Logged(s, s', w, ev, Closed(t));
    Logged(s, s', w, ev, Expanded(t));
    Logged(s, s', w, ev, GaveUp(t, true));
    Logged(s, s', w, ev, GaveUp(t, false));
    Logged(s, s', w, ev, Ended(t, true));
    DueMoves(p, s, s', w, ev, t);
    hide G, N, Due, DueChange;
  }

  lemma CountOne<T>(x: T, y: T)
    ensures Count([x], y) == (if x == y then 1 else 0) && Count<T>([], y) == 0
  {
    CountSnoc([], x, y);
    assert [] + [x] == [x];
  }

  // ------------------------------------------------------------ the steps, one kind at a time

  /** Phase changes that leave the task in its roles. */
  predicate PlainPhase(t: Task, ph: Phase, next: Phase) {
    match ph
    case Trying(_) => next == Tried(false) || next.Began?
    case Began(_) => next.Guarding? || (next.Writing? && !t.Transfer?)
    case Guarding(_) => next.Writing? && !t.Transfer?
    case Writing(_, _, _) => next.Writing? || (next.Trying? && !t.Transfer?)
    case Collecting(todo, found) => todo == [] && next == Putting(found)
    case Putting(rest) => rest == [] && next == Closing
    case _ => false
  }

  predicate Plain(pc: Pc, next: Pc) {
    (!pc.On? && !next.On?) || (pc.On? && next.On? && next.task == pc.task && PlainPhase(pc.task, pc.phase, next.phase))
  }

  lemma PlainParts(p: Plan, pc: Pc, next: Pc, t: Task)
    requires Plain(pc, next)
    ensures Part(p, next, Early, t) == Part(p, pc, Early, t)
    ensures Part(p, next, Late, t) == Part(p, pc, Late, t)
    ensures Part(p, next, Won, t) == Part(p, pc, Won, t)
    ensures t.Transfer? ==> Part(p, next, Mid, t) == Part(p, pc, Mid, t)
  {
    hide Count;
  }

  lemma PlainPending(p: Plan, pc: Pc, next: Pc, t: Task)
    requires Plain(pc, next)
    ensures Part(p, next, Pending, t) == Part(p, pc, Pending, t)
  {
    assert Count<Task>([], t) == 0;
  }

  predicate Uncounted(ev: seq<Event>) {
    ev == [] || (|ev| == 1 && (ev[0].TombPut? || ev[0].Wrote? || (ev[0].Ended? && !ev[0].ok)))
  }

  lemma NotCounted(ev: seq<Event>, t: Task)
    requires Uncounted(ev)
    ensures Count(ev, Queued(t)) == Count(ev, Closed(t)) == Count(ev, Expanded(t)) == 0
    ensures Count(ev, GaveUp(t, true)) == Count(ev, GaveUp(t, false)) == Count(ev, Ended(t, true)) == 0
  {
    CountIn(ev, Queued(t));
    CountIn(ev, Closed(t));
    CountIn(ev, Expanded(t));
    CountIn(ev, GaveUp(t, true));
    CountIn(ev, GaveUp(t, false));
    CountIn(ev, Ended(t, true));
    hide Count;
  }

  lemma PlainDue(p: Plan, pc: Pc, next: Pc, ev: seq<Event>, t: Task)
    requires Plain(pc, next) && Uncounted(ev)
    ensures DueChange(p, pc, next, ev, t) == 0
  {
    match t {
      case Build(x) => if Parent(p, x).Some? { NotCounted(ev, Build(Parent(p, x).value)); }
      case Transfer(x) => NotCounted(ev, Build(x));
      case Push(x) =>
        NotCounted(ev, Transfer(x));
        PlainParts(p, pc, next, Transfer(x));
      case Tomb =>
    }
    hide Count, Part, Plain, Uncounted;
  }

  lemma PlainBalanced(p: Plan, pc: Pc, next: Pc, ev: seq<Event>, t: Task)
    requires Plain(pc, next) && Uncounted(ev)
    ensures Balanced(p, pc, next, ev, 0, t)
    ensures DueChange(p, pc, next, ev, t) == 0
  {
    NotCounted(ev, t);
    PlainParts(p, pc, next, t);
    PlainPending(p, pc, next, t);
    PlainDue(p, pc, next, ev, t);
    hide Count, Part, Plain, Uncounted, DueChange;
  }

  lemma CountOneOf(ev: seq<Event>, e: Event, t: Task)
    requires ev == [e]
    ensures Count(ev, Queued(t)) == Bit(e == Queued(t))
    ensures Count(ev, Closed(t)) == Bit(e == Closed(t))
    ensures Count(ev, Expanded(t)) == Bit(e == Expanded(t))
    ensures Count(ev, GaveUp(t, true)) == Bit(e == GaveUp(t, true))
    ensures Count(ev, GaveUp(t, false)) == Bit(e == GaveUp(t, false))
    ensures Count(ev, Ended(t, true)) == Bit(e == Ended(t, true))
  {
    CountOne(e, Queued(t));
    CountOne(e, Closed(t));
    CountOne(e, Expanded(t));
    CountOne(e, GaveUp(t, true));
    CountOne(e, GaveUp(t, false));
    CountOne(e, Ended(t, true));
    hide Count;
  }

  /** Nothing becomes due unless a task is expanded or a transfer is made. */
  lemma QuietDue(p: Plan, old0: Pc, new0: Pc, ev: seq<Event>, t: Task)
    requires ev == [] || (|ev| == 1 && !ev[0].Expanded? && !ev[0].Ended?)
    requires t.Push? ==> Part(p, old0, Mid, Transfer(t.id)) == Part(p, new0, Mid, Transfer(t.id))
    ensures DueChange(p, old0, new0, ev, t) == 0
  {
    match t {
      case Build(x) => if Parent(p, x).Some? { CountIn(ev, Expanded(Build(Parent(p, x).value))); }
      case Transfer(x) => CountIn(ev, Expanded(Build(x)));
      case Push(x) => CountIn(ev, Ended(Transfer(x), true));
      case Tomb =>
    }
    hide Count, Part;
  }

  // Taking a task from a queue.
  lemma GetBalanced(p: Plan, u: Task, t: Task)
    requires !u.Tomb? && !t.Tomb?
    ensures Balanced(p, Waiting, On(u, Trying(0)), [], 0 - Bit(u == t), t)
    ensures DueChange(p, Waiting, On(u, Trying(0)), [], t) == 0
  {
    NotCounted([], t);
    QuietDue(p, Waiting, On(u, Trying(0)), [], t);
    hide Count, DueChange;
  }

  // A transfer puts the push task into the push queue.
  lemma TransferBalanced(p: Plan, x: Id, k: nat, t: Task)
    requires !t.Tomb?
    ensures var old0, new0, ev := On(Transfer(x), Began(k)), On(Transfer(x), Writing(k, [], false)), [Queued(Push(x))];
      && Balanced(p, old0, new0, ev, Bit(t == Push(x)), t)
      && DueChange(p, old0, new0, ev, t) == Bit(t == Push(x))
  {
    var ev := [Queued(Push(x))];
    CountOneOf(ev, ev[0], t);
    match t {
      case Build(y) => if Parent(p, y).Some? { CountOneOf(ev, ev[0], Build(Parent(p, y).value)); }
      case Transfer(y) => CountOneOf(ev, ev[0], Build(y));
      case Push(y) => CountOneOf(ev, ev[0], Transfer(y));
    }
    hide Count;
  }

  // A successful attempt.
  lemma WonBalanced(p: Plan, u: Task, k: nat, ws: seq<Status>, r: bool, t: Task)
    requires !t.Tomb? && !u.Tomb?
    ensures var old0, new0, ev := On(u, Writing(k, ws, r)), On(u, Tried(true)), [Ended(u, true)];
      && Balanced(p, old0, new0, ev, 0, t)
      && DueChange(p, old0, new0, ev, t) == 0
  {
    var ev := [Ended(u, true)];
    CountOneOf(ev, ev[0], t);
    match t {
      case Build(y) => if Parent(p, y).Some? { CountOneOf(ev, ev[0], Build(Parent(p, y).value)); }
      case Transfer(y) => CountOneOf(ev, ev[0], Build(y));
      case Push(y) => CountOneOf(ev, ev[0], Transfer(y));
    }
    hide Count;
  }

  // No followups: the task failed, or the worker is to stop.
  lemma GiveUpBalanced(p: Plan, u: Task, ok: bool, t: Task)
    requires !t.Tomb? && !u.Tomb?
    ensures var old0, new0, ev := On(u, Tried(ok)), On(u, Closing), [GaveUp(u, ok)];
      && Balanced(p, old0, new0, ev, 0, t)
      && DueChange(p, old0, new0, ev, t) == 0
  {
    var ev := [GaveUp(u, ok)];
    CountOneOf(ev, ev[0], t);
    QuietDue(p, On(u, Tried(ok)), On(u, Closing), ev, t);
    hide Count, DueChange;
  }

  // task_done().
  lemma CloseBalanced(p: Plan, u: Task, t: Task)
    requires !t.Tomb? && !u.Tomb?
    ensures var old0, new0, ev := On(u, Closing), Idle, [Closed(u)];
      && Balanced(p, old0, new0, ev, 0, t)
      && DueChange(p, old0, new0, ev, t) == 0
  {
    var ev := [Closed(u)];
    CountOneOf(ev, ev[0], t);
    QuietDue(p, On(u, Closing), Idle, ev, t);
    hide Count, DueChange;
  }

  // Putting a followup into the worker's own queue.
  lemma PutBalanced(p: Plan, u: Task, rest: seq<Task>, t: Task)
    requires !t.Tomb? && !u.Tomb? && rest != [] && (rest[0].Build? || rest[0].Transfer?)
    ensures var old0, new0, ev := On(u, Putting(rest)), On(u, Putting(rest[1..])), [Queued(rest[0])];
      && Balanced(p, old0, new0, ev, Bit(t == rest[0]), t)
      && DueChange(p, old0, new0, ev, t) == 0
  {
    var ev := [Queued(rest[0])];
    CountOneOf(ev, ev[0], t);
    CountHead(rest, t);
    QuietDue(p, On(u, Putting(rest)), On(u, Putting(rest[1..])), ev, t);
    hide Count, DueChange;
  }

  // Reading the status of a child while the followups are collected.
  lemma CollectBalanced(p: Plan, u: Task, todo: seq<Id>, found: seq<Task>, t: Task)
    requires !t.Tomb? && !u.Tomb? && todo != []
    ensures
      var more := if Eligible(p, todo[0]) then [Build(todo[0])] else [];
      var old0, new0 := On(u, Collecting(todo, found)), On(u, Collecting(todo[1..], found + more));
      && Balanced(p, old0, new0, [], 0, t)
      && DueChange(p, old0, new0, [], t) == 0
  {
    hide Count, DueChange, Eligible, Due;
    var more := if Eligible(p, todo[0]) then [Build(todo[0])] else [];
    NotCounted([], t);
    CountConcat(found, more, t);
    CountConcat(more, Offspring(p, todo[1..]), t);
    QuietDue(p, On(u, Collecting(todo, found)), On(u, Collecting(todo[1..], found + more)), [], t);
  }

  lemma {:induction false} OffspringCount(p: Plan, todo: seq<Id>, t: Task)
    requires forall i, j :: 0 <= i < j < |todo| ==> todo[i] != todo[j]
    ensures Count(Offspring(p, todo), t) == Bit(t.Build? && t.id in todo && Eligible(p, t.id))
  {
    if todo != [] {
      OffspringCount(p, todo[1..], t);
      var first := if Eligible(p, todo[0]) then [Build(todo[0])] else [];
      CountConcat(first, Offspring(p, todo[1..]), t);
      CountOne(Build(todo[0]), t);
      assert t.Build? ==> (t.id in todo <==> t.id == todo[0] || t.id in todo[1..]);
      hide Count;
    }
  }

  function FirstTodo(p: Plan, u: Task): seq<Id> { if u.Build? then Children(p, u.id) else [] }

  // Exactly the followups become due when a task is expanded.
  lemma ExpandDue(p: Plan, u: Task, t: Task)
    requires ValidPlan(p) && !t.Tomb? && !u.Tomb? && u.id < |p.parent|
    requires u.Build? ==> Eligible(p, u.id)
    ensures var old0, new0, ev := On(u, Tried(true)), On(u, Collecting(FirstTodo(p, u), FirstFollowups(p, u))), [Expanded(u)];
      DueChange(p, old0, new0, ev, t) == Count(FirstFollowups(p, u), t) + Count(Offspring(p, FirstTodo(p, u)), t)
  {
    var ev := [Expanded(u)];
    OffspringCount(p, FirstTodo(p, u), t);
    CountOne(Transfer(u.id), t);
    match t {
      case Build(y) => if Parent(p, y).Some? { CountOneOf(ev, ev[0], Build(Parent(p, y).value)); }
      case Transfer(y) => CountOneOf(ev, ev[0], Build(y));
      case Push(y) => CountOneOf(ev, ev[0], Transfer(y));
    }
    hide Count, Offspring;
  }

  lemma ExpandBalanced(p: Plan, u: Task, t: Task)
    requires ValidPlan(p) && !t.Tomb? && !u.Tomb? && u.id < |p.parent|
    requires u.Build? ==> Eligible(p, u.id)
    ensures var old0, new0, ev := On(u, Tried(true)), On(u, Collecting(FirstTodo(p, u), FirstFollowups(p, u))), [Expanded(u)];
      Balanced(p, old0, new0, ev, 0, t)
  {
    CountOneOf([Expanded(u)], Expanded(u), t);
    ExpandDue(p, u, t);
    hide Count, DueChange, FirstTodo, FirstFollowups, ValidPlan;
  }

  /** A held task has been queued once, and is not held or queued anywhere else. */
  lemma HeldOnce(p: Plan, s: State, w: nat)
    requires Counted(p, s) && w < |s.workers| && s.workers[w].pc.On? && !s.workers[w].pc.task.Tomb?
    ensures var t := s.workers[w].pc.task;
      && N(s, Queued(t)) == 1 && InQueues(s, t) == 0 && N(s, Closed(t)) == 0
      && G(p, s, Early, t) == Part(p, s.workers[w].pc, Early, t)
      && G(p, s, Late, t) == Part(p, s.workers[w].pc, Late, t)
      && Due(p, s, t) == 1
  {
    var t := s.workers[w].pc.task;
    assert CountedFor(p, s, t);
    SumHas(RoleOf(p, Early, t), s.workers, w);
    SumHas(RoleOf(p, Late, t), s.workers, w);
    hide Sum, Count, Due;
  }

  // ------------------------------------------------------------ every step

  lemma PlainCounted(p: Plan, s: State, s': State, w: nat, ev: seq<Event>, t: Task)
    requires Moves(s, s', w, ev) && CountedFor(p, s, t)
    requires Plain(s.workers[w].pc, s'.workers[w].pc) && Uncounted(ev)
    requires InQueues(s', t) == InQueues(s, t)
    ensures CountedFor(p, s', t)
  {
    PlainBalanced(p, s.workers[w].pc, s'.workers[w].pc, ev, t);
    assert Due(p, s, t) <= 1;
    hide Plain, Uncounted, Due, DueChange, Balanced, CountedFor, InQueues, Moves;
    Rebalance(p, s, s', w, ev, t);
  }

  /** Followups collected so far, and to come, are those that the filtering asks for. */
  ghost predicate ExclusionKept(p: Plan, s: State) {
    forall x :: 0 <= x < |p.parent| ==>
      if Excluded(At(p.filtered, x)) then At(s.status, x) == At(p.filtered, x) else !Excluded(At(s.status, x))
  }

  /** A task of an image exists only if the image was to be built. */
  lemma QueuedEligible(p: Plan, s: State, t: Task)
    requires Counted(p, s) && !t.Tomb? && Due(p, s, t) > 0
    ensures Eligible(p, t.id) && (t.Build? ==> t.id < |p.parent|)
    ensures !t.Build? ==> N(s, Expanded(Build(t.id))) == 1 && N(s, Queued(Build(t.id))) == 1
    ensures t.Push? ==> N(s, Queued(Transfer(t.id))) == 1 && p.push
    decreases if t.Push? then 2 else if t.Transfer? then 1 else 0
  {
    var x := t.id;
    assert CountedFor(p, s, Build(x));
    if t.Transfer? {
      QueuedEligible(p, s, Build(x));
    } else if t.Push? {
      assert CountedFor(p, s, Transfer(x));
      MidAndWonAreEarly(p, s, Transfer(x));
      QueuedEligible(p, s, Transfer(x));
    }
    hide Sum, Count, G, N;
  }

  lemma HeldAlone(p: Plan, s: State, w: nat, r: Role)
    requires Counted(p, s) && w < |s.workers| && s.workers[w].pc.On? && !s.workers[w].pc.task.Tomb?
    requires r.Mid? || r.Won?
    ensures Part(p, s.workers[w].pc, r, s.workers[w].pc.task) == 0 && !Decided(s.workers[w].pc.phase)
      ==> G(p, s, r, s.workers[w].pc.task) == 0
  {
    var t := s.workers[w].pc.task;
    HeldOnce(p, s, w);
    if Part(p, s.workers[w].pc, r, t) == 0 && !Decided(s.workers[w].pc.phase) && G(p, s, r, t) > 0 {
      var i := SumFrom(RoleOf(p, r, t), s.workers);
      SumHasBoth(RoleOf(p, Early, t), s.workers, if i < w then i else w, if i < w then w else i);
    }
    hide Sum, Count, Due;
  }

  /** A transfer that has not run has not been counted as a cause of a push. */
  lemma NotYetPushed(p: Plan, s: State, w: nat)
    requires Counted(p, s) && w < |s.workers| && s.workers[w].pc.On?
    requires s.workers[w].pc.task.Transfer? && s.workers[w].pc.phase.Began?
    ensures Due(p, s, Push(s.workers[w].pc.task.id)) == 0
  {
    var t := s.workers[w].pc.task;
    assert CountedFor(p, s, t);
    HeldOnce(p, s, w);
    HeldAlone(p, s, w, Mid);
    HeldAlone(p, s, w, Won);
    hide Sum, Count, G, N;
  }

  /** What a task's expansion makes due was not due before. */
  lemma ExpandFresh(p: Plan, s: State, w: nat, t: Task)
    requires Counted(p, s) && w < |s.workers| && s.workers[w].pc.On? && !t.Tomb? && !s.workers[w].pc.task.Tomb?
    requires s.workers[w].pc.phase == Tried(true)
    ensures var u := s.workers[w].pc.task;
      Due(p, s, t) + DueChange(p, On(u, Tried(true)), On(u, Collecting(FirstTodo(p, u), FirstFollowups(p, u))), [Expanded(u)], t) <= 1
  {
    var u := s.workers[w].pc.task;
    HeldOnce(p, s, w);
    assert CountedFor(p, s, u);
    assert CountedFor(p, s, t);
    match t {
      case Build(y) => if Parent(p, y).Some? { CountOneOf([Expanded(u)], Expanded(u), Build(Parent(p, y).value)); }
      case Transfer(y) => CountOneOf([Expanded(u)], Expanded(u), Build(y));
      case Push(y) => CountOneOf([Expanded(u)], Expanded(u), Transfer(y));
    }
    hide Sum, Count, G, N;
  }

  lemma TaskCounted(p: Plan, s: State, w: nat, o: Oracle, t: Task)
    requires ValidPlan(p) && Typed(p, s) && Counted(p, s) && ExclusionKept(p, s)
    requires CanStep(s, w) && s.workers[w].pc.On? && !t.Tomb?
    requires !Decided(s.workers[w].pc.phase) && !s.workers[w].pc.phase.Tried?
    ensures CountedFor(p, WorkerStep(p, s, w, o), t)
  {
    var u, ph := s.workers[w].pc.task, s.workers[w].pc.phase;
    if ph.Began? && u.Transfer? {
      TransferCounted(p, s, w, o, t);
    } else if ph.Writing? && ph.writes == [] && !ph.raises && Succeeds(u, s.status) {
      WonCounted(p, s, w, o, t);
    } else {
      OtherCounted(p, s, w, o, t);
    }
    hide WorkerStep, CountedFor;
  }

  lemma TransferCounted(p: Plan, s: State, w: nat, o: Oracle, t: Task)
    requires ValidPlan(p) && Typed(p, s) && Counted(p, s) && CanStep(s, w) && s.workers[w].pc.On? && !t.Tomb?
    requires s.workers[w].pc.phase.Began? && s.workers[w].pc.task.Transfer?
    ensures CountedFor(p, WorkerStep(p, s, w, o), t)
  {
    hide Due, DueChange, Balanced, Count;
    var me := s.workers[w];
    var u, ph := me.pc.task, me.pc.phase;
    assert WellTyped(p, me);
    NotYetPushed(p, s, w);
    assert CountedFor(p, s, t) && Due(p, s, t) <= 1;
    WorkerFrame(p, s, w, o);
    TransferBalanced(p, u.id, ph.tries, t);
    CountSnoc(s.push.items, Push(u.id), t);
    hide CountedFor;
    Rebalance(p, s, WorkerStep(p, s, w, o), w, [Queued(Push(u.id))], t);
  }

  lemma WonCounted(p: Plan, s: State, w: nat, o: Oracle, t: Task)
    requires Typed(p, s) && Counted(p, s) && CanStep(s, w) && s.workers[w].pc.On? && !t.Tomb?
    requires s.workers[w].pc.phase.Writing? && s.workers[w].pc.phase.writes == []
    requires !s.workers[w].pc.phase.raises && Succeeds(s.workers[w].pc.task, s.status)
    ensures CountedFor(p, WorkerStep(p, s, w, o), t)
  {
    hide Due, DueChange, Balanced, Count;
    var me := s.workers[w];
    var u, ph := me.pc.task, me.pc.phase;
    assert WellTyped(p, me);
    assert CountedFor(p, s, t) && Due(p, s, t) <= 1;
    WorkerFrame(p, s, w, o);
    WonBalanced(p, u, ph.tries, ph.writes, ph.raises, t);
    hide CountedFor;
    Rebalance(p, s, WorkerStep(p, s, w, o), w, [Ended(u, true)], t);
  }

  lemma OtherCounted(p: Plan, s: State, w: nat, o: Oracle, t: Task)
    requires Typed(p, s) && Counted(p, s) && CanStep(s, w) && s.workers[w].pc.On? && !t.Tomb?
    requires var u, ph := s.workers[w].pc.task, s.workers[w].pc.phase;
      && !Decided(ph) && !ph.Tried? && !(ph.Began? && u.Transfer?)
      && !(ph.Writing? && ph.writes == [] && !ph.raises && Succeeds(u, s.status))
    ensures CountedFor(p, WorkerStep(p, s, w, o), t)
  {
    hide Due, DueChange, Count;
    var me := s.workers[w];
    var u, ph := me.pc.task, me.pc.phase;
    var s' := WorkerStep(p, s, w, o);
    assert WellTyped(p, me);
    assert CountedFor(p, s, t);
    hide CountedFor;
    WorkerFrame(p, s, w, o);
    if ph.Writing? {
      PlainCounted(p, s, s', w, [if ph.writes != [] then Wrote(u, ph.writes[0]) else Ended(u, false)], t);
    } else {
      PlainCounted(p, s, s', w, [], t);
    }
  }

  lemma TriedCounted(p: Plan, s: State, w: nat, o: Oracle, t: Task)
    requires ValidPlan(p) && Typed(p, s) && Counted(p, s) && ExclusionKept(p, s)
    requires CanStep(s, w) && s.workers[w].pc.On? && !t.Tomb?
    requires s.workers[w].pc.phase.Tried?
    ensures CountedFor(p, WorkerStep(p, s, w, o), t)
  {
    var me := s.workers[w];
    var u, ph := me.pc.task, me.pc.phase;
    var s' := WorkerStep(p, s, w, o);
    assert WellTyped(p, me);
    assert CountedFor(p, s, t);
    WorkerFrame(p, s, w, o);
    var ok := ph.success;
    if ok && !me.stop {
      ExpandFresh(p, s, w, t);
      HeldOnce(p, s, w);
      QueuedEligible(p, s, u);
      ExpandBalanced(p, u, t);
      hide Due, DueChange, Balanced, Count, CountedFor;
      Rebalance(p, s, s', w, [Expanded(u)], t);
    } else {
      GiveUpBalanced(p, u, ok, t);
      hide Due, DueChange, Balanced, Count, CountedFor;
      Rebalance(p, s, s', w, [GaveUp(u, ok)], t);
    }
  }

  lemma CollectingCounted(p: Plan, s: State, w: nat, o: Oracle, t: Task)
    requires ValidPlan(p) && Typed(p, s) && Counted(p, s) && ExclusionKept(p, s)
    requires CanStep(s, w) && s.workers[w].pc.On? && !t.Tomb?
    requires s.workers[w].pc.phase.Collecting?
    ensures CountedFor(p, WorkerStep(p, s, w, o), t)
  {
    hide Due, DueChange, Balanced, Count;
    assert CountedFor(p, s, t) && Due(p, s, t) <= 1;
    hide CountedFor;
    var me := s.workers[w];
    var u, ph := me.pc.task, me.pc.phase;
    var s' := WorkerStep(p, s, w, o);
    assert WellTyped(p, me);
    WorkerFrame(p, s, w, o);
    if ph.todo == [] {
      DoneCollecting(p, s, w, o, t);
    } else {
      assert ph.todo[0] in ph.todo;
      CollectBalanced(p, u, ph.todo, ph.found, t);
      Rebalance(p, s, s', w, [], t);
    }
  }

  lemma DoneCollecting(p: Plan, s: State, w: nat, o: Oracle, t: Task)
    requires Typed(p, s) && CountedFor(p, s, t) && CanStep(s, w) && s.workers[w].pc.On? && !t.Tomb?
    requires s.workers[w].pc.phase.Collecting? && s.workers[w].pc.phase.todo == []
    ensures CountedFor(p, WorkerStep(p, s, w, o), t)
  {
    assert WellTyped(p, s.workers[w]);
    WorkerFrame(p, s, w, o);
    PlainCounted(p, s, WorkerStep(p, s, w, o), w, [], t);
  }

  lemma PuttingCounted(p: Plan, s: State, w: nat, o: Oracle, t: Task)
    requires ValidPlan(p) && Typed(p, s) && Counted(p, s) && ExclusionKept(p, s)
    requires CanStep(s, w) && s.workers[w].pc.On? && !t.Tomb?
    requires s.workers[w].pc.phase.Putting?
    ensures CountedFor(p, WorkerStep(p, s, w, o), t)
  {
    hide Due, DueChange, Balanced, Count;
    assert CountedFor(p, s, t) && Due(p, s, t) <= 1;
    hide CountedFor;
    var me := s.workers[w];
    var u, ph := me.pc.task, me.pc.phase;
    var s' := WorkerStep(p, s, w, o);
    assert WellTyped(p, me);
    WorkerFrame(p, s, w, o);
    if ph.rest == [] {
      DonePutting(p, s, w, o, t);
    } else {
      assert FollowupOf(p, me.pool, ph.rest[0]);
      PutBalanced(p, u, ph.rest, t);
      CountSnoc(s.build.items, ph.rest[0], t);
      Rebalance(p, s, s', w, [Queued(ph.rest[0])], t);
    }
  }

  lemma DonePutting(p: Plan, s: State, w: nat, o: Oracle, t: Task)
    requires Typed(p, s) && CountedFor(p, s, t) && CanStep(s, w) && s.workers[w].pc.On? && !t.Tomb?
    requires s.workers[w].pc.phase.Putting? && s.workers[w].pc.phase.rest == []
    ensures CountedFor(p, WorkerStep(p, s, w, o), t)
  {
    assert WellTyped(p, s.workers[w]);
    WorkerFrame(p, s, w, o);
    PlainCounted(p, s, WorkerStep(p, s, w, o), w, [], t);
  }

  lemma ClosingCounted(p: Plan, s: State, w: nat, o: Oracle, t: Task)
    requires ValidPlan(p) && Typed(p, s) && Counted(p, s) && ExclusionKept(p, s)
    requires CanStep(s, w) && s.workers[w].pc.On? && !t.Tomb?
    requires s.workers[w].pc.phase.Closing?
    ensures CountedFor(p, WorkerStep(p, s, w, o), t)
  {
    var me := s.workers[w];
    var u, ph := me.pc.task, me.pc.phase;
    var s' := WorkerStep(p, s, w, o);
    assert WellTyped(p, me);
    assert CountedFor(p, s, t);
    WorkerFrame(p, s, w, o);
    CloseBalanced(p, u, t);
    hide Due, DueChange, Balanced, Count, CountedFor;
    Rebalance(p, s, s', w, [Closed(u)], t);
  }

  lemma WaitingCounted(p: Plan, s: State, w: nat, o: Oracle, t: Task)
    requires Typed(p, s) && CountedFor(p, s, t)
    requires CanStep(s, w) && s.workers[w].pc.Waiting? && !t.Tomb?
    ensures CountedFor(p, WorkerStep(p, s, w, o), t)
  {
    var me := s.workers[w];
    var s' := WorkerStep(p, s, w, o);
    var items := QueueOf(s, me.pool).items;
    WorkerFrame(p, s, w, o);
    CountHead(items, t);
    if items[0].Tomb? {
      PlainCounted(p, s, s', w, [], t);
    } else {
      GetBalanced(p, items[0], t);
      hide Due, DueChange, Balanced, Count, CountedFor;
      Rebalance(p, s, s', w, [], t);
    }
  }

  lemma LoopCounted(p: Plan, s: State, w: nat, o: Oracle, t: Task)
    requires Typed(p, s) && Counted(p, s)
    requires CanStep(s, w) && !s.workers[w].pc.On? && !t.Tomb?
    ensures CountedFor(p, WorkerStep(p, s, w, o), t)
  {
    var me := s.workers[w];
    var s' := WorkerStep(p, s, w, o);
    assert CountedFor(p, s, t);
    WorkerFrame(p, s, w, o);
    match me.pc {
      case Idle => PlainCounted(p, s, s', w, [], t);
      case Waiting => WaitingCounted(p, s, w, o, t);
      case Reput =>
        CountSnoc(QueueOf(s, me.pool).items, Tomb, t);
        PlainCounted(p, s, s', w, [TombPut(me.pool)], t);
    }
  }

  lemma CountedWork(p: Plan, s: State, w: nat, o: Oracle)
    requires ValidPlan(p) && Typed(p, s) && Counted(p, s) && ExclusionKept(p, s) && CanStep(s, w)
    ensures Counted(p, WorkerStep(p, s, w, o))
  {
    forall t: Task | !t.Tomb? ensures CountedFor(p, WorkerStep(p, s, w, o), t) {
      if !s.workers[w].pc.On? {
        LoopCounted(p, s, w, o, t);
      } else if s.workers[w].pc.phase.Tried? {
        TriedCounted(p, s, w, o, t);
      } else if s.workers[w].pc.phase.Collecting? {
        CollectingCounted(p, s, w, o, t);
      } else if s.workers[w].pc.phase.Putting? {
        PuttingCounted(p, s, w, o, t);
      } else if s.workers[w].pc.phase.Closing? {
        ClosingCounted(p, s, w, o, t);
      } else {
        TaskCounted(p, s, w, o, t);
      }
    }
    hide WorkerStep;
  }
}
