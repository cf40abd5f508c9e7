/** Where the tasks of a state are: counts over the worker threads, the queues and the log. */
module Counting {
  import opened Statuses
  import opened Attempts
  import opened Protocol

  // ------------------------------------------------------------ counting in sequences

  function Count<T(==)>(xs: seq<T>, x: T): nat {
    if xs == [] then 0
    else Count(xs[..|xs| - 1], x) + (if xs[|xs| - 1] == x then 1 else 0)
  }

  lemma CountSnoc<T>(xs: seq<T>, y: T, x: T)
    ensures Count(xs + [y], x) == Count(xs, x) + (if y == x then 1 else 0)
  {
    assert (xs + [y])[..|xs|] == xs;
  }

  lemma {:induction false} CountConcat<T>(xs: seq<T>, ys: seq<T>, x: T)
    ensures Count(xs + ys, x) == Count(xs, x) + Count(ys, x)
  {
    if ys == [] {
      assert xs + ys == xs;
    } else {
      var n := |ys| - 1;
      CountConcat(xs, ys[..n], x);
      CountSnoc(xs + ys[..n], ys[n], x);
      assert xs + ys == (xs + ys[..n]) + [ys[n]];
    }
  }

  lemma CountHead<T>(xs: seq<T>, x: T)
    requires xs != []
    ensures Count(xs, x) == Count(xs[1..], x) + (if xs[0] == x then 1 else 0)
  {
    CountConcat([xs[0]], xs[1..], x);
    assert xs == [xs[0]] + xs[1..];
    CountSnoc([], xs[0], x);
    assert [] + [xs[0]] == [xs[0]];
  }

  lemma {:induction false} CountIn<T>(xs: seq<T>, x: T)
    ensures Count(xs, x) > 0 <==> x in xs
  {
    if xs != [] {
      CountIn(xs[..|xs| - 1], x);
    }
  }

  // ------------------------------------------------------------ sums over workers

  function Sum(f: Worker -> nat, ws: seq<Worker>): nat {
    if ws == [] then 0 else Sum(f, ws[..|ws| - 1]) + f(ws[|ws| - 1])
  }

  lemma {:induction false} SumUpdate(f: Worker -> nat, ws: seq<Worker>, i: nat, w: Worker)
    requires i < |ws|
    ensures Sum(f, ws[i := w]) + f(ws[i]) == Sum(f, ws) + f(w)
  {
    var n := |ws| - 1;
    var us := ws[i := w];
    if i == n {
      assert us[..n] == ws[..n];
    } else {
      SumUpdate(f, ws[..n], i, w);
      assert us[..n] == ws[..n][i := w];
    }
  }

  lemma {:induction false} SumHas(f: Worker -> nat, ws: seq<Worker>, i: nat)
    requires i < |ws|
    ensures f(ws[i]) <= Sum(f, ws)
  {
    if i < |ws| - 1 {
      SumHas(f, ws[..|ws| - 1], i);
    }
  }

  lemma {:induction false} SumHasBoth(f: Worker -> nat, ws: seq<Worker>, i: nat, j: nat)
    requires i < j < |ws|
    ensures f(ws[i]) + f(ws[j]) <= Sum(f, ws)
  {
    if j == |ws| - 1 {
      SumHas(f, ws[..j], i);
    } else {
      SumHasBoth(f, ws[..|ws| - 1], i, j);
    }
  }

  lemma {:induction false} SumFrom(f: Worker -> nat, ws: seq<Worker>) returns (i: nat)
    requires Sum(f, ws) > 0
    ensures i < |ws| && f(ws[i]) > 0
  {
    if f(ws[|ws| - 1]) > 0 {
      i := |ws| - 1;
    } else {
      i := SumFrom(f, ws[..|ws| - 1]);
    }
  }

  lemma {:induction false} SumZero(f: Worker -> nat, ws: seq<Worker>)
    requires forall i :: 0 <= i < |ws| ==> f(ws[i]) == 0
    ensures Sum(f, ws) == 0
  {
    if ws != [] {
      SumZero(f, ws[..|ws| - 1]);
    }
  }

  lemma {:induction false} SumBound(f: Worker -> nat, g: Worker -> nat, h: Worker -> nat, ws: seq<Worker>)
    requires forall w :: f(w) + g(w) <= h(w)
    ensures Sum(f, ws) + Sum(g, ws) <= Sum(h, ws)
  {
    if ws != [] {
      SumBound(f, g, h, ws[..|ws| - 1]);
    }
  }

  // ------------------------------------------------------------ roles

  /** The ways in which a worker can be concerned with a task. */
  datatype Role =
    | Early            // taken from a queue, its fate not yet decided
    | Late             // decided, not yet reported done
    | Pending          // about to be put into a queue
    | Mid              // between the start and the end of an attempt's writes
    | Won              // behind the attempt loop with success set

  /** The build tasks that evaluating the followups of a task creates for the children `todo`. */
  function Offspring(p: Plan, todo: seq<Id>): seq<Task> {
    if todo == [] then []
    else (if Eligible(p, todo[0]) then [Build(todo[0])] else []) + Offspring(p, todo[1..])
  }

  predicate Decided(ph: Phase) { ph.Collecting? || ph.Putting? || ph.Closing? }

  predicate Plays(ph: Phase, r: Role) {
    match r
    case Early => !Decided(ph)
    case Late => Decided(ph)
    case Mid => ph.Writing?
    case Won => ph.Tried? && ph.success
    case Pending => false
  }

  function Bit(b: bool): nat { if b then 1 else 0 }

  /** How often the worker is about to put `t` into a queue. */
  function Coming(p: Plan, pc: Pc, t: Task): nat {
    if pc.On? && pc.phase.Collecting? then Count(pc.phase.found, t) + Count(Offspring(p, pc.phase.todo), t)
    else if pc.On? && pc.phase.Putting? then Count(pc.phase.rest, t)
    else 0
  }

  /** How often the worker is concerned with `t` in role `r`. */
  function Part(p: Plan, pc: Pc, r: Role, t: Task): nat {
    if r.Pending? then Coming(p, pc, t)
    else if pc.On? && pc.task == t && Plays(pc.phase, r) then 1 else 0
  }

  function RoleOf(p: Plan, r: Role, t: Task): Worker -> nat {
    (w: Worker) => Part(p, w.pc, r, t)
  }

  /** How often the workers together are concerned with `t` in role `r`. */
  function G(p: Plan, s: State, r: Role, t: Task): nat { Sum(RoleOf(p, r, t), s.workers) }

  /** A worker writing or successful behind the loop has not yet decided. */
  lemma MidAndWonAreEarly(p: Plan, s: State, t: Task)
    ensures G(p, s, Mid, t) + G(p, s, Won, t) <= G(p, s, Early, t)
  {
    SumBound(RoleOf(p, Mid, t), RoleOf(p, Won, t), RoleOf(p, Early, t), s.workers);
  }

  /** How often an event has happened. */
  function N(s: State, e: Event): nat { Count(s.log, e) }

  /** How often the task waits in a queue. */
  function InQueues(s: State, t: Task): nat { Count(s.build.items, t) + Count(s.push.items, t) }

  /** How often the task ought to have been created, given what has been expanded so far. */
  function Due(p: Plan, s: State, t: Task): nat {
    match t
    case Build(x) =>
      if !Eligible(p, x) || |p.parent| <= x then 0
      else if Seed(p, x) then 1
      else N(s, Expanded(Build(Parent(p, x).value)))
    case Transfer(x) => if p.push then N(s, Expanded(Build(x))) else 0
    case Push(x) => N(s, Ended(Transfer(x), true)) + G(p, s, Mid, Transfer(x))
    case Tomb => 0
  }

  /** Queued tasks are in a queue, with a worker, or done. */
  ghost predicate Located(p: Plan, s: State, t: Task) {
    N(s, Queued(t)) == InQueues(s, t) + G(p, s, Early, t) + G(p, s, Late, t) + N(s, Closed(t))
  }

  /** Every task leaves the attempt loop once. */
  ghost predicate DecidedOnce(p: Plan, s: State, t: Task) {
    N(s, Expanded(t)) + N(s, GaveUp(t, true)) + N(s, GaveUp(t, false)) == G(p, s, Late, t) + N(s, Closed(t))
  }

  /** Exactly the tasks that are due have been or are being queued, each at most once. */
  ghost predicate Created(p: Plan, s: State, t: Task) {
    N(s, Queued(t)) + G(p, s, Pending, t) == Due(p, s, t) <= 1
  }

  /** Successful attempts lead to followups, unless the worker was told to stop. */
  ghost predicate Rewarded(p: Plan, s: State, t: Task) {
    N(s, Ended(t, true)) == G(p, s, Won, t) + N(s, Expanded(t)) + N(s, GaveUp(t, true))
  }

  ghost predicate CountedFor(p: Plan, s: State, t: Task) {
    Located(p, s, t) && DecidedOnce(p, s, t) && Created(p, s, t) && Rewarded(p, s, t)
  }

  ghost predicate Counted(p: Plan, s: State) {
    forall t: Task :: !t.Tomb? ==> CountedFor(p, s, t)
  }
}
