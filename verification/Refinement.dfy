/**
 * The steps of the scheduler model do what the task objects do: a worker that is not
 * interleaved with others goes through one attempt exactly like `BuildTask.Run` or `PushTask.Run`.
 */
module Refinement {
  import opened Statuses
  import opened Attempts
  import opened Protocol
  import opened Tasks
  import opened Images

  /** The state after `n` steps of worker `w` alone. */
  function Alone(p: Plan, s: State, w: nat, o: Oracle, n: nat): Option<State>
    decreases n
  {
    if n == 0 then Some(s)
    else if CanStep(s, w) then Alone(p, WorkerStep(p, s, w, o), w, o, n - 1)
    else None
  }

  /** The worker is behind the attempt: the image has status `v`, and the attempt succeeded or not. */
  predicate After(s: State, r: Option<State>, w: nat, t: Task, k: nat, v: Status, ok: bool)
    requires !t.Tomb?
  {
    && r.Some? && w < |r.value.workers|
    && r.value.workers[w].pc == On(t, if ok then Tried(true) else Trying(k + 1))
    && r.value.status == Written(s.status, t.id, v)
  }

  lemma AloneNext(p: Plan, s: State, w: nat, o: Oracle, n: nat)
    requires CanStep(s, w)
    ensures Alone(p, s, w, o, n + 1) == Alone(p, WorkerStep(p, s, w, o), w, o, n)
    ensures Alone(p, s, w, o, 0) == Some(s)
  {
    hide WorkerStep;
  }

  /** One write, or the end of an attempt. */
  lemma WriteStep(p: Plan, s: State, w: nat, o: Oracle, t: Task, k: nat, ws: seq<Status>, raises: bool)
    requires w < |s.workers| && !t.Tomb? && t.id < |s.status|
    requires s.workers[w].pc == On(t, Writing(k, ws, raises))
    ensures CanStep(s, w)
    ensures var s' := WorkerStep(p, s, w, o);
      && |s'.workers| == |s.workers|
      && (ws == [] ==>
            && s'.status == s.status
            && s'.workers[w].pc == On(t, if !raises && Succeeds(t, s.status) then Tried(true) else Trying(k + 1)))
      && (ws != [] ==> s'.status == s.status[t.id := ws[0]] && s'.workers[w].pc == On(t, Writing(k, ws[1..], raises)))
  {
    hide Succeeds;
  }

  lemma {:induction false} WritesAlone(p: Plan, s: State, w: nat, o: Oracle, t: Task, k: nat, ws: seq<Status>, raises: bool)
    requires w < |s.workers| && !t.Tomb? && t.id < |s.status|
    requires s.workers[w].pc == On(t, Writing(k, ws, raises))
    ensures var v := Final(s.status[t.id], ws);
      After(s, Alone(p, s, w, o, |ws| + 1), w, t, k, v, !raises && Succeeds(t, Written(s.status, t.id, v)))
    decreases |ws|
  {
    hide Alone, CanStep, WorkerStep, Succeeds;
    WriteStep(p, s, w, o, t, k, ws, raises);
    AloneNext(p, s, w, o, |ws|);
    var s' := WorkerStep(p, s, w, o);
    if ws == [] {
      assert Written(s.status, t.id, s.status[t.id]) == s.status;
      AloneDone(p, s', w, o);
    } else {
      WritesAlone(p, s', w, o, t, k, ws[1..], raises);
      var v := Final(s.status[t.id], ws);
      assert Final(s'.status[t.id], ws[1..]) == v;
      assert Written(s'.status, t.id, v) == Written(s.status, t.id, v);
    }
  }

  lemma AloneDone(p: Plan, s: State, w: nat, o: Oracle)
    ensures Alone(p, s, w, o, 0) == Some(s)
  {
  }

  /** How many steps one attempt at a build takes. */
  function Steps(own: Status, a: Attempt): nat { |a.writes| + (if Excluded(own) then 2 else 3) }

  function ParentSeen(p: Plan, s: State, x: Id): Option<Status> {
    if Parent(p, x).Some? then Some(At(s.status, Parent(p, x).value)) else None
  }

  /** One attempt at a build. */
  lemma BuildAlone(p: Plan, s: State, w: nat, o: Oracle, x: Id, k: nat)
    requires w < |s.workers| && x < |s.status| && s.workers[w].pc == On(Build(x), Began(k))
    ensures var a := Attempting(s.status[x], ParentSeen(p, s, x), o.env);
      var v := Final(s.status[x], a.writes);
      After(s, Alone(p, s, w, o, Steps(s.status[x], a)), w, Build(x), k, v, !a.raises && (v.Built? || v.Skipped?))
  {
    var a := Attempting(s.status[x], ParentSeen(p, s, x), o.env);
    var s1 := WorkerStep(p, s, w, o);
    if Excluded(s.status[x]) {
      WritesAlone(p, s1, w, o, Build(x), k, [], false);
    } else {
      var s2 := WorkerStep(p, s1, w, o);
      WritesAlone(p, s2, w, o, Build(x), k, a.writes, a.raises);
    }
  }

  /** One attempt at a push. */
  lemma PushAlone(p: Plan, s: State, w: nat, o: Oracle, x: Id, k: nat)
    requires w < |s.workers| && x < |s.status| && s.workers[w].pc == On(Push(x), Began(k))
    ensures After(s, Alone(p, s, w, o, 3), w, Push(x), k, PushWrite(o.push), o.push.Pushed?)
  {
    WritesAlone(p, WorkerStep(p, s, w, o), w, o, Push(x), k, [PushWrite(o.push)], false);
  }

  // ---------------------------------------------------------------- followups

  /** The build tasks for the images of `todo` that are to be built. */
  function Builds(status: seq<Status>, todo: seq<Id>): seq<Task> {
    if todo == [] then []
    else (if Excluded(At(status, todo[0])) then [] else [Build(todo[0])]) + Builds(status, todo[1..])
  }

  lemma GotoTwice(s: State, w: nat, a: Pc, b: Pc)
    requires w < |s.workers|
    ensures Goto(Goto(s, w, a), w, b) == Goto(s, w, b)
  {
  }

  lemma {:induction false} CollectAlone(p: Plan, s: State, w: nat, o: Oracle, t: Task, todo: seq<Id>, found: seq<Task>)
    requires w < |s.workers| && s.workers[w].pc == On(t, Collecting(todo, found))
    ensures Alone(p, s, w, o, |todo| + 1) == Some(Goto(s, w, On(t, Putting(found + Builds(s.status, todo)))))
    decreases |todo|
  {
    if todo == [] {
      assert found + [] == found;
      assert Alone(p, WorkerStep(p, s, w, o), w, o, 0) == Some(WorkerStep(p, s, w, o));
    } else {
      var more := if Excluded(At(s.status, todo[0])) then [] else [Build(todo[0])];
      var next := On(t, Collecting(todo[1..], found + more));
      assert WorkerStep(p, s, w, o) == Goto(s, w, next);
      CollectAlone(p, Goto(s, w, next), w, o, t, todo[1..], found + more);
      GotoTwice(s, w, next, On(t, Putting(found + more + Builds(s.status, todo[1..]))));
      assert found + more + Builds(s.status, todo[1..]) == found + Builds(s.status, todo);
    }
  }

  ghost function Builders(picked: seq<Image>): seq<Task> {
    seq(|picked|, i requires 0 <= i < |picked| => Build(picked[i].id))
  }

  lemma {:induction false} BuildsSnoc(status: seq<Status>, todo: seq<Id>, x: Id)
    ensures Builds(status, todo + [x]) == Builds(status, todo) + (if Excluded(At(status, x)) then [] else [Build(x)])
  {
    if todo == [] {
      assert [] + [x] == [x] && [x][1..] == [];
    } else {
      assert (todo + [x])[1..] == todo[1..] + [x];
      BuildsSnoc(status, todo[1..], x);
    }
  }

  lemma {:induction false} KeptBuilds(images: seq<Image>, status: seq<Status>, children: seq<Image>)
    requires |status| == |images| && forall i :: 0 <= i < |images| ==> images[i].status == status[i]
    requires forall c <- children :: Inside(images, c)
    ensures Builds(status, Ids(children)) == Builders(Kept(children))
    decreases |children|
  {
    if children != [] {
      var n := |children| - 1;
      KeptBuilds(images, status, children[..n]);
      assert children[n] in children;
      assert Ids(children) == Ids(children[..n]) + [children[n].id];
      BuildsSnoc(status, Ids(children[..n]), children[n].id);
      assert Kept(children[..n]) + [] == Kept(children[..n]);
      assert Builders(Kept(children[..n]) + [children[n]]) == Builders(Kept(children[..n])) + [Build(children[n].id)];
    }
  }

  /**
   * Evaluating the followups step by step gives what `BuildTask.Followups` returns: with push the
   * transfer, then one build task for each image that it picks, in the same order; nothing else changes.
   */
  lemma FollowupsAlone(p: Plan, s: State, w: nat, o: Oracle, images: seq<Image>, x: Id, picked: seq<Image>, at: seq<nat>)
    requires w < |s.workers| && x < |images| && LinksInside(images) && Children(p, x) == Ids(images[x].children)
    requires |s.status| == |images| && forall i :: 0 <= i < |images| ==> images[i].status == s.status[i]
    requires s.workers[w].pc == On(Build(x), Collecting(Children(p, x), FirstFollowups(p, Build(x))))
    requires Picked(images[x].children, picked, at)
    ensures Alone(p, s, w, o, |Children(p, x)| + 1)
         == Some(Goto(s, w, On(Build(x), Putting((if p.push then [Transfer(x)] else []) + Builders(picked)))))
  {
    CollectAlone(p, s, w, o, Build(x), Children(p, x), FirstFollowups(p, Build(x)));
    PickedIsKept(images[x].children, picked, at);
    KeptBuilds(images, s.status, images[x].children);
    hide Alone, WorkerStep, Builds, Kept, Picked, Builders;
  }
}
