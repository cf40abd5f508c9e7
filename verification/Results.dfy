/** What the program reports and returns after a run that ended drained. */
module Results {
  import opened Statuses
  import opened Protocol
  import opened Counting
  import opened CountingSteps
  import opened StatusHistory
  import opened StatusFacts
  import opened Drain
  import opened Scheduler
  import opened Outcomes
  import opened Reports

  function EntriesAt(names: seq<string>, statuses: seq<Status>): seq<Entry>
    requires |names| == |statuses|
  {
    seq(|names|, i requires 0 <= i < |names| => Entry(names[i], statuses[i]))
  }

  /** The build of `x` succeeded and, with push enabled, so did its last push attempt. */
  ghost predicate Delivered(p: Plan, s: State, x: Id) {
    BuiltOk(s, x) && (p.push ==> LastTry(s.log, Push(x)) == Some(true))
  }

  lemma StatusLength(p: Plan, acts: seq<Action>)
    requires ValidPlan(p) && Run(p, acts).Some?
    ensures |Run(p, acts).value.status| == |p.parent|
  {
    hide Run, Counted, Tallied, PollSound, StatusSound, Causal, TriesSound, Launching;
    RunInv(p, acts);
  }

  /** An image does not fail the program exactly if it was left out, is allowed to fail, or was delivered. */
  lemma AcceptableIff(p: Plan, acts: seq<Action>, names: seq<string>, allowed: set<string>, x: Id)
    requires ValidPlan(p) && Run(p, acts).Some? && SeenDrained(Run(p, acts).value.main)
    requires |names| == |p.parent| == |Run(p, acts).value.status| && x < |p.parent|
    ensures var s := Run(p, acts).value;
      Acceptable(Entry(names[x], s.status[x]), allowed) <==>
        (p.filtered[x].Matched? ==> names[x] in allowed || Delivered(p, s, x))
  {
    hide Run, SeenDrained, BuiltOk, LastTry, Typed, Counted, Tallied, PollSound, StatusSound, Causal, TriesSound, Launching;
    RunInv(p, acts);
    if p.filtered[x].Matched? {
      EndStatus(p, acts, x);
    } else {
      ExcludedUntouched(p, acts, x);
    }
  }

  /** The program returns 0 exactly if every image that was to be built was delivered or is allowed to fail. */
  lemma ZeroMeansDelivered(p: Plan, acts: seq<Action>, names: seq<string>, allowed: set<string>)
    requires ValidPlan(p) && Run(p, acts).Some? && SeenDrained(Run(p, acts).value.main)
    requires |names| == |p.parent|
    ensures var s := Run(p, acts).value;
      && |s.status| == |names|
      && (ExitCode(Some(Collected(EntriesAt(names, s.status), allowed))) == 0 <==>
            forall x :: 0 <= x < |p.parent| && p.filtered[x].Matched? ==> names[x] in allowed || Delivered(p, s, x))
  {
    hide Run, Delivered, SeenDrained, ExitCode, Collected, Acceptable;
    StatusLength(p, acts);
    var s := Run(p, acts).value;
    assert |s.status| == |p.parent|;
    var es := EntriesAt(names, s.status);
    ExitCodeIff(es, allowed);
    forall x | 0 <= x < |p.parent|
      ensures Acceptable(es[x], allowed) <==> (p.filtered[x].Matched? ==> names[x] in allowed || Delivered(p, s, x))
    {
      AcceptableIff(p, acts, names, allowed, x);
    }
    assert forall x :: 0 <= x < |p.parent| ==> es[x] in es;
  }
}
