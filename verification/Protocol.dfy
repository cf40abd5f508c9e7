/**
 * The build scheduler as a step relation: build workers and push workers over two
 * shared queues, and the main thread that starts, polls and stops them.
 *
 * Every queue operation, every read or write of a shared status and every read of
 * `should_stop` is a step of its own, so any interleaving of the threads is a
 * sequence of actions.  The event log is a history variable: no step reads it.
 */
module Protocol {
  import opened Statuses
  import opened Attempts

  type Id = nat

  /** What the scheduler is started on: the image forest, its statuses after filtering, the configuration. */
  datatype Plan = Plan(
    parent: seq<Option<Id>>,
    children: seq<seq<Id>>,
    filtered: seq<Status>,
    push: bool,
    retries: nat,
    builders: nat,
    pushers: nat)

  function Parent(p: Plan, x: Id): Option<Id> {
    if x < |p.parent| then p.parent[x] else None
  }

  function Children(p: Plan, x: Id): seq<Id> {
    if x < |p.children| then p.children[x] else []
  }

  function At(status: seq<Status>, x: Id): Status {
    if x < |status| then status[x] else Unmatched
  }

  function Written(status: seq<Status>, x: Id, v: Status): seq<Status> {
    if x < |status| then status[x := v] else status
  }

  ghost predicate ValidPlan(p: Plan) {
    && |p.parent| == |p.children| == |p.filtered|
    && (forall x :: 0 <= x < |p.parent| && p.parent[x].Some? ==>
          p.parent[x].value < |p.parent| && x in p.children[p.parent[x].value])
    && (forall x, i :: 0 <= x < |p.children| && 0 <= i < |p.children[x]| ==>
          p.children[x][i] < |p.parent| && p.parent[p.children[x][i]] == Some(x))
    && (forall x, i, j :: 0 <= x < |p.children| && 0 <= i < j < |p.children[x]| ==>
          p.children[x][i] != p.children[x][j])
    && (forall x :: 0 <= x < |p.filtered| ==>
          p.filtered[x].Matched? || Excluded(p.filtered[x]))
    && (forall x :: 0 <= x < |p.filtered| && p.filtered[x].Matched? && p.parent[x].Some? ==>
          var s := p.filtered[p.parent[x].value]; s.Matched? || s.Skipped?)
    && 1 <= p.builders && 1 <= p.pushers
  }

  datatype Task = Build(id: Id) | Transfer(id: Id) | Push(id: Id) | Tomb

  datatype Queue = Queue(items: seq<Task>, unfinished: int)

  datatype Pool = BuildPool | PushPool

  /** Where a worker thread is in `WorkerThread.run`. */
  datatype Pc =
    | NotStarted
    | Idle                             // about to test should_stop
    | Waiting                          // in queue.get()
    | Reput                            // holds the tombstone, about to put it back
    | On(task: Task, phase: Phase)     // busy with a task
    | Stopped

  /** How far a worker is with its task; `tries` counts the attempts that are over. */
  datatype Phase =
    | Trying(tries: nat)                              // top of the attempt loop
    | Began(tries: nat)                               // task.run() entered
    | Guarding(tries: nat)                            // about to read the parent's status
    | Writing(tries: nat, writes: seq<Status>, raises: bool)
    | Tried(success: bool)                            // behind the attempt loop
    | Collecting(todo: seq<Id>, found: seq<Task>)     // evaluating task.followups
    | Putting(rest: seq<Task>)                        // enqueuing the followups
    | Closing                                         // about to call task_done()

  datatype Worker = Worker(pool: Pool, pc: Pc, stop: bool)

  datatype MainPc =
    | Launch(next: nat)
    | Register(next: nat)
    | PollBuild
    | PollPush
    | TombPush
    | TombBuild
    | Flag(next: nat, registered: nat)
    | HaltPush
    | HaltBuild
    | Joining(interrupted: bool)

  datatype Event =
    | Queued(task: Task)
    | TombPut(pool: Pool)
    | Wrote(task: Task, status: Status)
    | Ended(task: Task, ok: bool)     // one attempt is over
    | Expanded(task: Task)            // success seen, followups evaluated
    | GaveUp(task: Task, ok: bool)    // no followups
    | Closed(task: Task)

  datatype State = State(
    status: seq<Status>,
    build: Queue,
    push: Queue,
    workers: seq<Worker>,
    main: MainPc,
    log: seq<Event>)

  // ---------------------------------------------------------------- start

  function Eligible(p: Plan, x: Id): bool { !Excluded(At(p.filtered, x)) }

  /** The roots of the forest that is to be built. */
  predicate Seed(p: Plan, x: Id) {
    && Eligible(p, x)
    && (Parent(p, x).None? || At(p.filtered, Parent(p, x).value).Skipped?)
  }

  function Seeds(p: Plan, n: nat): seq<Task> {
    if n == 0 then []
    else Seeds(p, n - 1) + (if Seed(p, n - 1) then [Build(n - 1)] else [])
  }

  function Announce(ts: seq<Task>): seq<Event> {
    seq(|ts|, i requires 0 <= i < |ts| => Queued(ts[i]))
  }

  function Start(p: Plan): State {
    var seeds := Seeds(p, |p.filtered|);
    State(p.filtered, Queue(seeds, |seeds|), Queue([], 0),
          seq(p.builders + p.pushers,
              i => Worker(if i < p.builders then BuildPool else PushPool, NotStarted, false)),
          Launch(0), Announce(seeds))
  }

  // ---------------------------------------------------------------- steps

  function QueueOf(s: State, pool: Pool): Queue {
    if pool.BuildPool? then s.build else s.push
  }

  function SetQueue(s: State, pool: Pool, q: Queue): State {
    if pool.BuildPool? then s.(build := q) else s.(push := q)
  }

  function PutEvent(pool: Pool, t: Task): Event {
    if t.Tomb? then TombPut(pool) else Queued(t)
  }

  /** `queue.put`: the unfinished counter counts tombstones too. */
  function Enqueue(s: State, pool: Pool, t: Task): State {
    var q := QueueOf(s, pool);
    SetQueue(s, pool, Queue(q.items + [t], q.unfinished + 1)).(log := s.log + [PutEvent(pool, t)])
  }

  function Goto(s: State, w: nat, pc: Pc): State
    requires w < |s.workers|
  {
    s.(workers := s.workers[w := s.workers[w].(pc := pc)])
  }

  function Log(s: State, e: Event): State { s.(log := s.log + [e]) }

  /** Whether `task.success` is set when the task's run method returns. */
  predicate Succeeds(t: Task, status: seq<Status>) {
    match t
    case Build(x) => At(status, x).Built? || At(status, x).Skipped?
    case Push(x) => !IsError(At(status, x)) && !At(status, x).Unprocessed?
    case _ => true
  }

  function FirstFollowups(p: Plan, t: Task): seq<Task> {
    if t.Build? && p.push then [Transfer(t.id)] else []
  }

  predicate CanStep(s: State, w: nat) {
    && w < |s.workers|
    && !s.workers[w].pc.NotStarted?
    && !s.workers[w].pc.Stopped?
    && (s.workers[w].pc.Waiting? ==> QueueOf(s, s.workers[w].pool).items != [])
  }

  /** What the outside world does during the step; read only where an attempt starts. */
  datatype Oracle = Oracle(env: Environment, push: PushResult)

  function AfterGet(t: Task): Pc { if t.Tomb? then Reput else On(t, Trying(0)) }

  function AfterGuard(p: Plan, s: State, t: Task, tries: nat, o: Oracle): Phase {
    if t.Build? && Parent(p, t.id).Some? && IsError(At(s.status, Parent(p, t.id).value)) then
      Writing(tries, [ParentError], false)
    else
      var a := BuildAttempt(o.env);
      Writing(tries, a.writes, a.raises)
  }

  /** A step of a worker that is busy with task `t`. */
  function TaskStep(p: Plan, s: State, w: nat, t: Task, phase: Phase, o: Oracle): State
    requires w < |s.workers|
  {
    var me := s.workers[w];
    match phase
    case Trying(k) =>
      Goto(s, w, On(t, if k > p.retries || me.stop then Tried(false) else Began(k)))
    case Began(k) =>
      (match t
       case Build(x) =>
         Goto(s, w, On(t, if Excluded(At(s.status, x)) then Writing(k, [], false) else Guarding(k)))
       case Transfer(x) => Goto(Enqueue(s, PushPool, Push(x)), w, On(t, Writing(k, [], false)))
       case Push(x) => Goto(s, w, On(t, Writing(k, [PushWrite(o.push)], false)))
       case Tomb => s)
    case Guarding(k) => Goto(s, w, On(t, AfterGuard(p, s, t, k, o)))
    case Writing(k, ws, r) =>
      if ws != [] && !t.Tomb? then
        Goto(Log(s.(status := Written(s.status, t.id, ws[0])), Wrote(t, ws[0])), w,
             On(t, Writing(k, ws[1..], r)))
      else
        var ok := !r && Succeeds(t, s.status);
        Goto(Log(s, Ended(t, ok)), w, On(t, if ok then Tried(true) else Trying(k + 1)))
    case Tried(ok) =>
      if ok && !me.stop then
        Goto(Log(s, Expanded(t)), w,
             On(t, Collecting(if t.Build? then Children(p, t.id) else [], FirstFollowups(p, t))))
      else
        Goto(Log(s, GaveUp(t, ok)), w, On(t, Closing))
    case Collecting(todo, found) =>
      if todo == [] then Goto(s, w, On(t, Putting(found)))
      else
        var more := if Excluded(At(s.status, todo[0])) then [] else [Build(todo[0])];
        Goto(s, w, On(t, Collecting(todo[1..], found + more)))
    case Putting(rest) =>
      if rest == [] then Goto(s, w, On(t, Closing))
      else Goto(Enqueue(s, me.pool, rest[0]), w, On(t, Putting(rest[1..])))
    case Closing =>
      var q := QueueOf(s, me.pool);
      Goto(Log(SetQueue(s, me.pool, q.(unfinished := q.unfinished - 1)), Closed(t)), w, Idle)
  }

  function WorkerStep(p: Plan, s: State, w: nat, o: Oracle): State
    requires CanStep(s, w)
  {
    var me := s.workers[w];
    match me.pc
    case Idle => Goto(s, w, if me.stop then Stopped else Waiting)
    case Waiting =>
      var q := QueueOf(s, me.pool);
      Goto(SetQueue(s, me.pool, q.(items := q.items[1..])), w, AfterGet(q.items[0]))
    case Reput => Goto(Enqueue(s, me.pool, Tomb), w, Stopped)
    case On(t, phase) => TaskStep(p, s, w, t, phase, o)
  }

  function MainStep(s: State): State
    requires !s.main.Joining?
  {
    match s.main
    case Launch(i) =>
      if i < |s.workers| then Goto(s, i, Idle).(main := Register(i)) else s.(main := PollBuild)
    case Register(i) => s.(main := Launch(i + 1))
    case PollBuild => if s.build.unfinished != 0 then s else s.(main := PollPush)
    case PollPush => s.(main := if s.push.unfinished != 0 then PollBuild else TombPush)
    case TombPush => Enqueue(s, PushPool, Tomb).(main := TombBuild)
    case TombBuild => Enqueue(s, BuildPool, Tomb).(main := Joining(false))
    case Flag(i, n) =>
      if i < n && i < |s.workers| then
        s.(workers := s.workers[i := s.workers[i].(stop := true)], main := Flag(i + 1, n))
      else s.(main := HaltPush)
    case HaltPush => Enqueue(s, PushPool, Tomb).(main := HaltBuild)
    case HaltBuild => Enqueue(s, BuildPool, Tomb).(main := Joining(true))
  }

  /** KeyboardInterrupt is caught while the main thread is in its try block. */
  predicate CanInterrupt(s: State) {
    !s.main.Flag? && !s.main.HaltPush? && !s.main.HaltBuild? && !s.main.Joining?
  }

  function Registered(s: State): nat {
    match s.main
    case Launch(i) => i
    case Register(i) => i
    case _ => |s.workers|
  }

  datatype Action = Work(w: nat, oracle: Oracle) | Main | Interrupt

  predicate Enabled(s: State, a: Action) {
    match a
    case Work(w, _) => CanStep(s, w)
    case Main => !s.main.Joining?
    case Interrupt => CanInterrupt(s)
  }

  function Step(p: Plan, s: State, a: Action): State
    requires Enabled(s, a)
  {
    match a
    case Work(w, o) => WorkerStep(p, s, w, o)
    case Main => MainStep(s)
    case Interrupt => s.(main := Flag(0, Registered(s)))
  }

  /** The state a schedule leads to, if every action of it was possible when it was taken. */
  function Run(p: Plan, acts: seq<Action>): Option<State> {
    if acts == [] then Some(Start(p))
    else
      var before := Run(p, acts[..|acts| - 1]);
      var a := acts[|acts| - 1];
      if before.Some? && Enabled(before.value, a) then Some(Step(p, before.value, a)) else None
  }
}
