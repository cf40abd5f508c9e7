/** The result dictionaries of `get_image_statuses` and the exit code derived from them. */
module Reports {
  import opened Statuses

  datatype Entry = Entry(name: string, status: Status)

  datatype Section = Good | NotMatched | SkippedOnes | NotBuildable | Tolerated | Bad

  datatype Report = Report(
    bad: map<string, Status>,
    good: map<string, Status>,
    unmatched: map<string, Status>,
    skipped: map<string, Status>,
    unbuildable: map<string, Status>,
    allowedToFail: map<string, Status>)
  {
    function Get(k: Section): map<string, Status> {
      match k
      case Good => good
      case NotMatched => unmatched
      case SkippedOnes => skipped
      case NotBuildable => unbuildable
      case Tolerated => allowedToFail
      case Bad => bad
    }

    predicate Empty() {
      bad == map[] && good == map[] && unmatched == map[] && skipped == map[] && unbuildable == map[] && allowedToFail == map[]
    }
  }

  function SectionOf(e: Entry, allowed: set<string>): Section {
    match e.status
    case Built => Good
    case Unmatched => NotMatched
    case Skipped => SkippedOnes
    case Unbuildable => NotBuildable
    case _ => if e.name in allowed then Tolerated else Bad
  }

  const NOTHING := Report(map[], map[], map[], map[], map[], map[])

  /** One image added to the dictionary of its section. */
  function Add(r: Report, e: Entry, allowed: set<string>): Report {
    match SectionOf(e, allowed)
    case Good => r.(good := r.good[e.name := e.status])
    case NotMatched => r.(unmatched := r.unmatched[e.name := e.status])
    case SkippedOnes => r.(skipped := r.skipped[e.name := e.status])
    case NotBuildable => r.(unbuildable := r.unbuildable[e.name := e.status])
    case Tolerated => r.(allowedToFail := r.allowedToFail[e.name := e.status])
    case Bad => r.(bad := r.bad[e.name := e.status])
  }

  function Collected(es: seq<Entry>, allowed: set<string>): Report {
    if es == [] then NOTHING
    else Add(Collected(es[..|es| - 1], allowed), es[|es| - 1], allowed)
  }

  /** What one image changes in the dictionary of section `k`. */
  lemma AddGet(r: Report, e: Entry, allowed: set<string>, k: Section)
    ensures Add(r, e, allowed).Get(k) == if SectionOf(e, allowed) == k then r.Get(k)[e.name := e.status] else r.Get(k)
  {
  }

  /** A dictionary holds exactly the names of the images in its section. */
  lemma {:induction false} KeysAre(es: seq<Entry>, allowed: set<string>, k: Section, name: string)
    ensures name in Collected(es, allowed).Get(k) <==>
      exists i :: 0 <= i < |es| && es[i].name == name && SectionOf(es[i], allowed) == k
  {
    hide Add, Report.Get, SectionOf;
    if es == [] {
      EmptyGet(k);
    } else {
      var n := |es| - 1;
      KeysAre(es[..n], allowed, k, name);
      AddGet(Collected(es[..n], allowed), es[n], allowed, k);
      if i :| 0 <= i < |es| && es[i].name == name && SectionOf(es[i], allowed) == k {
        assert i < n ==> es[..n][i] == es[i];
      }
    }
  }

  lemma EmptyGet(k: Section)
    ensures NOTHING.Get(k) == map[]
  {
  }

  /** The status shown for a name is that of the last image of the section that has the name. */
  lemma {:induction false} LastWins(es: seq<Entry>, allowed: set<string>, k: Section, i: nat)
    requires i < |es| && SectionOf(es[i], allowed) == k
    requires forall j :: i < j < |es| && es[j].name == es[i].name ==> SectionOf(es[j], allowed) != k
    ensures var m := Collected(es, allowed).Get(k); es[i].name in m && m[es[i].name] == es[i].status
  {
    hide Add, Report.Get, SectionOf;
    var n := |es| - 1;
    AddGet(Collected(es[..n], allowed), es[n], allowed, k);
    if i < n {
      LastWins(es[..n], allowed, k, i);
    }
  }

  /** Some image called `name` has the status `v`. */
  ghost predicate Has(es: seq<Entry>, name: string, v: Status) {
    exists i :: 0 <= i < |es| && es[i] == Entry(name, v)
  }

  /** Neither built nor left out by filtering. */
  predicate Failure(v: Status) { !v.Built? && !v.Unmatched? && !v.Skipped? && !v.Unbuildable? }

  /** Some image called `name` failed. */
  ghost predicate HasFailure(es: seq<Entry>, name: string) {
    exists i :: 0 <= i < |es| && es[i].name == name && Failure(es[i].status)
  }

  /** Image `i` is the last failure with its name. */
  ghost predicate LastFailure(es: seq<Entry>, i: nat) {
    && i < |es| && Failure(es[i].status)
    && forall j :: i < j < |es| && es[j].name == es[i].name ==> !Failure(es[j].status)
  }

  /** Which names the six dictionaries hold. */
  ghost predicate NamesRight(r: Report, es: seq<Entry>, allowed: set<string>, name: string) {
    && (name in r.good <==> Has(es, name, Built))
    && (name in r.unmatched <==> Has(es, name, Unmatched))
    && (name in r.skipped <==> Has(es, name, Skipped))
    && (name in r.unbuildable <==> Has(es, name, Unbuildable))
    && (name in r.allowedToFail <==> name in allowed && HasFailure(es, name))
    && (name in r.bad <==> name !in allowed && HasFailure(es, name))
  }

  /** Which statuses they show. */
  ghost predicate StatusesRight(r: Report, es: seq<Entry>) {
    && (forall name <- r.good :: r.good[name] == Built)
    && (forall name <- r.unmatched :: r.unmatched[name] == Unmatched)
    && (forall name <- r.skipped :: r.skipped[name] == Skipped)
    && (forall name <- r.unbuildable :: r.unbuildable[name] == Unbuildable)
    && (forall i: nat :: LastFailure(es, i) ==>
          && (es[i].name in r.allowedToFail ==> r.allowedToFail[es[i].name] == es[i].status)
          && (es[i].name in r.bad ==> r.bad[es[i].name] == es[i].status))
  }

  /** What the six dictionaries say about the images, dictionary by dictionary. */
  ghost predicate Tells(r: Report, es: seq<Entry>, allowed: set<string>) {
    (forall name :: NamesRight(r, es, allowed, name)) && StatusesRight(r, es)
  }

  /** The names of the section `k`, if its images are those with the status `v`. */
  lemma SectionHas(es: seq<Entry>, allowed: set<string>, k: Section, v: Status, name: string)
    requires (k, v) in {(Good, Built), (NotMatched, Unmatched), (SkippedOnes, Skipped), (NotBuildable, Unbuildable)}
    ensures name in Collected(es, allowed).Get(k) <==> Has(es, name, v)
  {
    hide Collected, Report.Get;
    KeysAre(es, allowed, k, name);
    forall i | 0 <= i < |es| ensures SectionOf(es[i], allowed) == k <==> es[i].status == v {
    }
    if i :| 0 <= i < |es| && es[i].name == name && SectionOf(es[i], allowed) == k {
      assert es[i] == Entry(name, v);
    }
  }

  lemma SectionFails(es: seq<Entry>, allowed: set<string>, name: string)
    ensures name in Collected(es, allowed).allowedToFail <==> name in allowed && HasFailure(es, name)
    ensures name in Collected(es, allowed).bad <==> name !in allowed && HasFailure(es, name)
  {
    hide Collected;
    KeysAre(es, allowed, Tolerated, name);
    KeysAre(es, allowed, Bad, name);
  }

  lemma NamesAreRight(es: seq<Entry>, allowed: set<string>, name: string)
    ensures NamesRight(Collected(es, allowed), es, allowed, name)
  {
    hide Collected, Has, HasFailure;
    SectionHas(es, allowed, Good, Built, name);
    SectionHas(es, allowed, NotMatched, Unmatched, name);
    SectionHas(es, allowed, SkippedOnes, Skipped, name);
    SectionHas(es, allowed, NotBuildable, Unbuildable, name);
    SectionFails(es, allowed, name);
  }

  /** The status shown for a name is one of an image with this name in the section. */
  lemma {:induction false} ShownOne(es: seq<Entry>, allowed: set<string>, k: Section, name: string)
    requires name in Collected(es, allowed).Get(k)
    ensures exists i :: 0 <= i < |es| && es[i].name == name && SectionOf(es[i], allowed) == k
              && es[i].status == Collected(es, allowed).Get(k)[name]
  {
    hide Add, Report.Get, SectionOf;
    if es == [] {
      EmptyGet(k);
    } else {
      var n := |es| - 1;
      AddGet(Collected(es[..n], allowed), es[n], allowed, k);
      if !(es[n].name == name && SectionOf(es[n], allowed) == k) {
        ShownOne(es[..n], allowed, k, name);
        var i :| 0 <= i < n && es[..n][i].name == name && SectionOf(es[..n][i], allowed) == k
                && es[..n][i].status == Collected(es[..n], allowed).Get(k)[name];
        assert es[i] == es[..n][i];
      }
    }
  }

  lemma StatusesAreRight(es: seq<Entry>, allowed: set<string>)
    ensures StatusesRight(Collected(es, allowed), es)
  {
    hide Collected;
    var r := Collected(es, allowed);
    forall name <- r.good ensures r.good[name] == Built { ShownOne(es, allowed, Good, name); }
    forall name <- r.unmatched ensures r.unmatched[name] == Unmatched { ShownOne(es, allowed, NotMatched, name); }
    forall name <- r.skipped ensures r.skipped[name] == Skipped { ShownOne(es, allowed, SkippedOnes, name); }
    forall name <- r.unbuildable ensures r.unbuildable[name] == Unbuildable { ShownOne(es, allowed, NotBuildable, name); }
    forall i: nat | LastFailure(es, i)
      ensures es[i].name in r.allowedToFail ==> r.allowedToFail[es[i].name] == es[i].status
      ensures es[i].name in r.bad ==> r.bad[es[i].name] == es[i].status
    {
      LastWins(es, allowed, SectionOf(es[i], allowed), i);
      SectionFails(es, allowed, es[i].name);
    }
  }

  /** The report tells of every image what it should, whatever the order and the names are. */
  lemma CollectedTells(es: seq<Entry>, allowed: set<string>)
    ensures Tells(Collected(es, allowed), es, allowed)
  {
    hide Collected, NamesRight, StatusesRight;
    forall name ensures NamesRight(Collected(es, allowed), es, allowed, name) {
      NamesAreRight(es, allowed, name);
    }
    StatusesAreRight(es, allowed);
  }

  /** A failed image that may fail is reported as such and nowhere else. */
  lemma AllowedFailure()
    ensures var r := Collected([Entry("nova", Error)], {"nova"});
      r.allowedToFail == map["nova" := Error] && r.good == map[] && r.bad == map[]
  {
    assert [Entry("nova", Error)][..0] == [];
  }

  /** Images with the same name are in the same section. */
  ghost predicate Consistent(es: seq<Entry>, allowed: set<string>) {
    forall i, j :: 0 <= i < |es| && 0 <= j < |es| && es[i].name == es[j].name ==>
      SectionOf(es[i], allowed) == SectionOf(es[j], allowed)
  }

  /** No name is lost: the dictionaries together hold exactly the names of the images. */
  lemma NamesConserved(es: seq<Entry>, allowed: set<string>, name: string)
    ensures (exists k :: name in Collected(es, allowed).Get(k)) <==> exists i :: 0 <= i < |es| && es[i].name == name
  {
    if k :| name in Collected(es, allowed).Get(k) {
      KeysAre(es, allowed, k, name);
    }
    if i :| 0 <= i < |es| && es[i].name == name {
      KeysAre(es, allowed, SectionOf(es[i], allowed), name);
    }
  }

  /** The dictionaries are disjoint exactly when equal names never fall into different sections. */
  lemma PartitionIff(es: seq<Entry>, allowed: set<string>)
    ensures Consistent(es, allowed) <==>
      forall k, l, name :: k != l && name in Collected(es, allowed).Get(k) ==> name !in Collected(es, allowed).Get(l)
  {
    if Consistent(es, allowed) {
      forall k, l, name | k != l && name in Collected(es, allowed).Get(k)
        ensures name !in Collected(es, allowed).Get(l)
      {
        KeysAre(es, allowed, k, name);
        KeysAre(es, allowed, l, name);
      }
    } else {
      var i, j :| 0 <= i < |es| && 0 <= j < |es| && es[i].name == es[j].name
                  && SectionOf(es[i], allowed) != SectionOf(es[j], allowed);
      KeysAre(es, allowed, SectionOf(es[i], allowed), es[i].name);
      KeysAre(es, allowed, SectionOf(es[j], allowed), es[i].name);
    }
  }

  /** Two images with the same name can be reported twice: as built, and as failed. */
  lemma SameNameTwice()
    ensures var r := Collected([Entry("kolla", Built), Entry("kolla", Error)], {});
      "kolla" in r.good && "kolla" in r.bad
  {
    var es := [Entry("kolla", Built), Entry("kolla", Error)];
    KeysAre(es, {}, Good, "kolla");
    KeysAre(es, {}, Bad, "kolla");
    assert es[0].name == es[1].name == "kolla" && SectionOf(es[0], {}) == Good && SectionOf(es[1], {}) == Bad;
  }

  /** A report with anything in it is kept, so it is recomputed only when there are no images at all. */
  lemma EmptyIff(es: seq<Entry>, allowed: set<string>)
    ensures Collected(es, allowed).Empty() <==> es == []
  {
    if es != [] {
      KeysAre(es, allowed, SectionOf(es[0], allowed), es[0].name);
    }
  }

  /** The exit code of the program, from what `run_build` returned. */
  function ExitCode(statuses: Option<Report>): int {
    if statuses.Some? && statuses.value.bad != map[] then 1 else 0
  }

  /** What an image may end as without failing the program. */
  predicate Acceptable(e: Entry, allowed: set<string>) {
    e.status.Built? || e.status.Unmatched? || e.status.Skipped? || e.status.Unbuildable? || e.name in allowed
  }

  /** The exit code is 0 or 1; without a report it is 0, with one it is 0 exactly if no image failed that must not. */
  lemma ExitCodeIff(es: seq<Entry>, allowed: set<string>)
    ensures ExitCode(None) == 0
    ensures ExitCode(Some(Collected(es, allowed))) in {0, 1}
    ensures ExitCode(Some(Collected(es, allowed))) == 0 <==> forall e <- es :: Acceptable(e, allowed)
  {
    var bad := Collected(es, allowed).bad;
    if bad == map[] {
      forall e <- es ensures Acceptable(e, allowed) {
        var i :| 0 <= i < |es| && es[i] == e;
        KeysAre(es, allowed, Bad, e.name);
      }
    } else {
      var name :| name in bad;
      KeysAre(es, allowed, Bad, name);
      var i :| 0 <= i < |es| && es[i].name == name && SectionOf(es[i], allowed) == Bad;
      assert es[i] in es && !Acceptable(es[i], allowed);
    }
  }
}
