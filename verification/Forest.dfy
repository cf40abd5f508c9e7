/**
 * The forest of images as a value, and what filtering it is meant to compute: a
 * declarative specification without any order of images and without any walk.
 */
module Forest {
  import opened Statuses
  import opened Protocol

  datatype Trees = Trees(
    names: seq<string>,
    canonical: seq<string>,
    parents: seq<Option<nat>>,
    children: seq<seq<nat>>)

  /** The options that decide which images are built. */
  datatype Request = Request(
    unbuildable: set<string>,              // names listed as unbuildable for this distro and architecture
    wanted: Option<string -> bool>,        // the filter, if one was given
    cached: Option<set<string>>,           // with skip_existing: the canonical names the engine has
    skipParents: bool)

  /** Parents are images of the forest, and a ranking shows that there is no cycle. */
  ghost predicate Ranked(parents: seq<Option<nat>>, rank: seq<nat>) {
    && |rank| == |parents|
    && forall i :: 0 <= i < |parents| && parents[i].Some? ==>
         parents[i].value < |parents| && rank[parents[i].value] < rank[i]
  }

  /** `a` is `i` or an ancestor of `i`. */
  predicate Above(parents: seq<Option<nat>>, rank: seq<nat>, a: nat, i: nat)
    requires Ranked(parents, rank) && i < |parents|
    decreases rank[i]
  {
    a == i || (parents[i].Some? && Above(parents, rank, a, parents[i].value))
  }

  lemma {:induction false} AboveTransitive(parents: seq<Option<nat>>, rank: seq<nat>, a: nat, b: nat, i: nat)
    requires Ranked(parents, rank) && i < |parents| && b < |parents|
    requires Above(parents, rank, a, b) && Above(parents, rank, b, i)
    ensures Above(parents, rank, a, i)
    decreases rank[i]
  {
    if b != i {
      AboveTransitive(parents, rank, a, b, parents[i].value);
    }
  }

  /** A property that children pass to their parents holds of all ancestors. */
  lemma {:induction false} Upwards(parents: seq<Option<nat>>, rank: seq<nat>, good: set<nat>, a: nat, i: nat)
    requires Ranked(parents, rank) && i < |parents| && Above(parents, rank, a, i) && i in good
    requires forall j <- good :: j < |parents| && (parents[j].Some? ==> parents[j].value in good)
    ensures a in good
    decreases rank[i]
  {
    if a != i {
      Upwards(parents, rank, good, a, parents[i].value);
    }
  }

  // ---------------------------------------------------------------- what filtering means

  /** The image or one of its ancestors is listed as unbuildable. */
  ghost predicate Doomed(f: Trees, rank: seq<nat>, req: Request, i: nat)
    requires Ranked(f.parents, rank) && |f.names| == |f.parents| && i < |f.parents|
  {
    exists a :: 0 <= a < |f.parents| && Above(f.parents, rank, a, i) && f.names[a] in req.unbuildable
  }

  /** The image or one of its descendants is asked for and can be built. */
  ghost predicate Needed(f: Trees, rank: seq<nat>, req: Request, i: nat)
    requires Ranked(f.parents, rank) && |f.names| == |f.parents| && i < |f.parents|
  {
    || req.wanted.None?
    || exists y :: 0 <= y < |f.parents| && Above(f.parents, rank, i, y)
         && !Doomed(f, rank, req, y) && req.wanted.value(f.names[y])
  }

  predicate Spared(f: Trees, req: Request, i: nat)
    requires |f.canonical| == |f.children| == |f.names| && i < |f.names|
  {
    || (req.cached.Some? && f.canonical[i] in req.cached.value)
    || (req.skipParents && f.children[i] != [])
  }

  ghost predicate Shaped(f: Trees, rank: seq<nat>) {
    Ranked(f.parents, rank) && |f.names| == |f.canonical| == |f.children| == |f.parents|
  }

  /** The status that filtering gives to an image. */
  ghost function Expected(f: Trees, rank: seq<nat>, req: Request, i: nat): Status
    requires Shaped(f, rank) && i < |f.parents|
  {
    if Doomed(f, rank, req, i) then Unbuildable
    else if !Needed(f, rank, req, i) then Unmatched
    else if Spared(f, req, i) then Skipped
    else Matched
  }

  /**
   * What it means that filtering gives image `i` the status `v`.  Unbuildable: it or an ancestor is listed as such.
   * Unmatched: otherwise, if there is a filter, and it selects the image or a descendant only where that is unbuildable.
   * Skipped: otherwise, if the engine has it or parents are skipped and it has children.  Matched: otherwise.
   */
  ghost predicate Filtered(f: Trees, rank: seq<nat>, req: Request, i: nat, v: Status)
    requires Shaped(f, rank) && i < |f.parents|
  {
    && (v == Unbuildable <==> exists a :: 0 <= a < |f.parents| && Above(f.parents, rank, a, i) && f.names[a] in req.unbuildable)
    && (v == Unmatched <==>
          && v != Unbuildable && req.wanted.Some?
          && forall y :: 0 <= y < |f.parents| && Above(f.parents, rank, i, y) && req.wanted.value(f.names[y]) ==>
               exists a :: 0 <= a < |f.parents| && Above(f.parents, rank, a, y) && f.names[a] in req.unbuildable)
    && (v == Skipped <==>
          && v != Unbuildable && v != Unmatched
          && ((req.cached.Some? && f.canonical[i] in req.cached.value) || (req.skipParents && |f.children[i]| > 0)))
    && (v == Matched <==> v != Unbuildable && v != Unmatched && v != Skipped)
  }

  lemma ExpectedFiltered(f: Trees, rank: seq<nat>, req: Request, i: nat)
    requires Shaped(f, rank) && i < |f.parents|
    ensures Filtered(f, rank, req, i, Expected(f, rank, req, i))
  {
    hide Above;
  }

  /** A small forest: two parents, an image asked for, one that cannot be built but is asked for, and one nobody asks for. */
  const SMALL := Trees(
    ["base", "nova-base", "nova-api", "glance", "glance-api", "keystone"], ["a", "b", "c", "d", "e", "f"],
    [None, Some(0), Some(1), Some(0), Some(3), Some(0)], [[1, 3, 5], [2], [], [4], [], []])

  const ASKED := Request({"glance"}, Some((name: string) => name == "nova-api" || name == "glance-api"), None, true)

  const DEPTHS: seq<nat> := [0, 1, 2, 1, 2, 1]

  lemma SmallAbove(a: nat, i: nat)
    requires a < 6 && i < 6
    ensures Shaped(SMALL, DEPTHS) && |SMALL.parents| == 6
    ensures Above(SMALL.parents, DEPTHS, a, i) <==> a == i || a == 0 || (a, i) in {(1, 2), (3, 4)}
  {
    assert Ranked(SMALL.parents, DEPTHS);
    assert Above(SMALL.parents, DEPTHS, a, 0) <==> a == 0;
    assert Above(SMALL.parents, DEPTHS, a, 1) <==> a == 1 || a == 0;
    assert Above(SMALL.parents, DEPTHS, a, 3) <==> a == 3 || a == 0;
  }

  lemma SmallNames()
    ensures forall i :: 0 <= i < 6 ==> (SMALL.names[i] in ASKED.unbuildable <==> i == 3)
    ensures forall i :: 0 <= i < 6 ==> (ASKED.wanted.value(SMALL.names[i]) <==> i == 2 || i == 4)
    ensures forall i :: 0 <= i < 6 ==> (SMALL.children[i] != [] <==> i == 0 || i == 1 || i == 3)
  {
    assert |"base"| == 4 && |"nova-base"| == 9 && |"nova-api"| == 8 && |"glance"| == 6 && |"glance-api"| == 10;
    assert "nova-api"[0] == 'n' && "keystone"[0] == 'k' && |"keystone"| == 8;
  }

  /** What filtering makes of it when parents are skipped. */
  lemma SmallFiltered()
    ensures Shaped(SMALL, DEPTHS)
    ensures forall i :: 0 <= i < 6 ==>
      Expected(SMALL, DEPTHS, ASKED, i) == [Skipped, Skipped, Matched, Unbuildable, Unbuildable, Unmatched][i]
  {
    SmallNames();
    forall a, i | 0 <= a < 6 && 0 <= i < 6
      ensures Shaped(SMALL, DEPTHS) && |SMALL.parents| == 6
      ensures Above(SMALL.parents, DEPTHS, a, i) <==> a == i || a == 0 || (a == 1 && i == 2) || (a == 3 && i == 4)
    {
      SmallAbove(a, i);
    }
    SmallAbove(0, 0);
    forall i | 0 <= i < 6
      ensures Expected(SMALL, DEPTHS, ASKED, i) == [Skipped, Skipped, Matched, Unbuildable, Unbuildable, Unmatched][i]
    {
      assert Above(SMALL.parents, DEPTHS, 3, i) <==> i == 3 || i == 4;
      assert Doomed(SMALL, DEPTHS, ASKED, i) <==> i == 3 || i == 4;
      assert Above(SMALL.parents, DEPTHS, i, 2) <==> i == 0 || i == 1 || i == 2;
      assert Needed(SMALL, DEPTHS, ASKED, i) <==> i == 0 || i == 1 || i == 2;
    }
    hide Expected, Above, Needed, Doomed;
  }

  /** Children lists and parent links say the same, and no child is listed twice. */
  ghost predicate Linked(f: Trees) {
    && |f.children| == |f.parents|
    && (forall i :: 0 <= i < |f.parents| && f.parents[i].Some? ==>
          f.parents[i].value < |f.parents| && i in f.children[f.parents[i].value])
    && (forall p, k :: 0 <= p < |f.children| && 0 <= k < |f.children[p]| ==>
          f.children[p][k] < |f.parents| && f.parents[f.children[p][k]] == Some(p))
    && (forall p, k, l :: 0 <= p < |f.children| && 0 <= k < l < |f.children[p]| ==>
          f.children[p][k] != f.children[p][l])
  }

  // ---------------------------------------------------------------- consequences

  /** What is needed and can be built has a parent that is needed and can be built. */
  lemma ParentsNeeded(f: Trees, rank: seq<nat>, req: Request, i: nat)
    requires Shaped(f, rank) && i < |f.parents| && f.parents[i].Some?
    requires !Doomed(f, rank, req, i) && Needed(f, rank, req, i)
    ensures !Doomed(f, rank, req, f.parents[i].value) && Needed(f, rank, req, f.parents[i].value)
  {
    var p := f.parents[i].value;
    assert forall a :: 0 <= a < |f.parents| && Above(f.parents, rank, a, p) ==> Above(f.parents, rank, a, i);
    if req.wanted.Some? {
      var y :| 0 <= y < |f.parents| && Above(f.parents, rank, i, y) && !Doomed(f, rank, req, y) && req.wanted.value(f.names[y]);
      AboveTransitive(f.parents, rank, p, i, y);
    }
  }

  function Config(f: Trees, statuses: seq<Status>, push: bool, retries: nat, builders: nat, pushers: nat): Plan {
    Plan(f.parents, f.children, statuses, push, retries, builders, pushers)
  }

  /** Filtering a linked forest gives the scheduler a plan it can work on. */
  lemma FilteredPlanIsValid(f: Trees, rank: seq<nat>, req: Request, statuses: seq<Status>, p: Plan)
    requires Shaped(f, rank) && Linked(f) && |statuses| == |f.parents|
    requires forall i :: 0 <= i < |f.parents| ==> statuses[i] == Expected(f, rank, req, i)
    requires p == Config(f, statuses, p.push, p.retries, p.builders, p.pushers) && 1 <= p.builders && 1 <= p.pushers
    ensures ValidPlan(p)
  {
    forall x | 0 <= x < |p.filtered| && p.filtered[x].Matched? && p.parent[x].Some?
      ensures p.filtered[p.parent[x].value].Matched? || p.filtered[p.parent[x].value].Skipped?
    {
      ParentsNeeded(f, rank, req, x);
    }
  }

  /**
   * Every image to be built is either seeded or offered as a followup of the one parent
   * that is itself to be built: never both, and never neither.
   */
  lemma SeedXorFollowup(p: Plan, x: Id)
    requires ValidPlan(p) && x < |p.parent| && p.filtered[x].Matched?
    ensures Seed(p, x) <==> !(exists y :: 0 <= y < |p.parent| && p.filtered[y].Matched? && x in p.children[y])
    ensures forall y, z :: 0 <= y < |p.parent| && 0 <= z < |p.parent| && x in p.children[y] && x in p.children[z] ==> y == z
  {
    if !Seed(p, x) {
      var y := p.parent[x].value;
      assert p.filtered[y].Matched? && x in p.children[y];
    }
  }

  // ---------------------------------------------------------------- the order of images does not matter

  /** `g` is `f` with image `i` moved to position `to[i]`. */
  ghost predicate Renumbered(f: Trees, g: Trees, to: seq<nat>) {
    && |to| == |f.parents| == |g.parents| && |f.names| == |f.parents| && |g.names| == |g.parents|
    && (forall i :: 0 <= i < |to| ==> to[i] < |to|)
    && (forall i, j :: 0 <= i < j < |to| ==> to[i] != to[j])
    && (forall k :: 0 <= k < |to| ==> k in to)
    && (forall i :: 0 <= i < |to| ==>
          && g.names[to[i]] == f.names[i]
          && g.parents[to[i]] == (if f.parents[i].None? then None
                                  else if f.parents[i].value < |to| then Some(to[f.parents[i].value]) else None))
  }

  lemma {:induction false} AboveRenumbered(f: Trees, g: Trees, to: seq<nat>, rf: seq<nat>, rg: seq<nat>, a: nat, i: nat)
    requires Renumbered(f, g, to) && Ranked(f.parents, rf) && Ranked(g.parents, rg)
    requires a < |to| && i < |to|
    ensures Above(f.parents, rf, a, i) <==> Above(g.parents, rg, to[a], to[i])
    decreases rf[i]
  {
    if a != i && f.parents[i].Some? {
      AboveRenumbered(f, g, to, rf, rg, a, f.parents[i].value);
    }
  }

  lemma DoomedRenumbered(f: Trees, g: Trees, to: seq<nat>, rf: seq<nat>, rg: seq<nat>, req: Request, i: nat)
    requires Renumbered(f, g, to) && Ranked(f.parents, rf) && Ranked(g.parents, rg) && i < |to|
    ensures Doomed(f, rf, req, i) <==> Doomed(g, rg, req, to[i])
  {
    if Doomed(f, rf, req, i) {
      var a :| 0 <= a < |f.parents| && Above(f.parents, rf, a, i) && f.names[a] in req.unbuildable;
      AboveRenumbered(f, g, to, rf, rg, a, i);
    }
    if Doomed(g, rg, req, to[i]) {
      var b :| 0 <= b < |g.parents| && Above(g.parents, rg, b, to[i]) && g.names[b] in req.unbuildable;
      assert b in to;
      var a :| 0 <= a < |to| && to[a] == b;
      AboveRenumbered(f, g, to, rf, rg, a, i);
    }
  }

  /** Which images are unbuildable and which are needed does not depend on the order of the list. */
  lemma OrderIrrelevant(f: Trees, g: Trees, to: seq<nat>, rf: seq<nat>, rg: seq<nat>, req: Request, i: nat)
    requires Renumbered(f, g, to) && Ranked(f.parents, rf) && Ranked(g.parents, rg) && i < |to|
    ensures Doomed(f, rf, req, i) <==> Doomed(g, rg, req, to[i])
    ensures Needed(f, rf, req, i) <==> Needed(g, rg, req, to[i])
  {
    DoomedRenumbered(f, g, to, rf, rg, req, i);
    if req.wanted.Some? && Needed(f, rf, req, i) {
      var y :| 0 <= y < |f.parents| && Above(f.parents, rf, i, y) && !Doomed(f, rf, req, y) && req.wanted.value(f.names[y]);
      AboveRenumbered(f, g, to, rf, rg, i, y);
      DoomedRenumbered(f, g, to, rf, rg, req, y);
    }
    if req.wanted.Some? && Needed(g, rg, req, to[i]) {
      var z :| 0 <= z < |g.parents| && Above(g.parents, rg, to[i], z) && !Doomed(g, rg, req, z) && req.wanted.value(g.names[z]);
      assert z in to;
      var y :| 0 <= y < |to| && to[y] == z;
      AboveRenumbered(f, g, to, rf, rg, i, y);
      DoomedRenumbered(f, g, to, rf, rg, req, y);
    }
  }

  /** The status that filtering gives to an image does not depend on the order of the list. */
  lemma OrderIrrelevantToStatus(f: Trees, g: Trees, to: seq<nat>, rf: seq<nat>, rg: seq<nat>, req: Request, i: nat)
    requires Renumbered(f, g, to) && Shaped(f, rf) && Shaped(g, rg) && i < |to|
    requires g.canonical[to[i]] == f.canonical[i] && (g.children[to[i]] == [] <==> f.children[i] == [])
    ensures Expected(g, rg, req, to[i]) == Expected(f, rf, req, i)
  {
    OrderIrrelevant(f, g, to, rf, rg, req, i);
  }
}
