/** How far the passes of `filter_images` have got, on the statuses as a value. */
module Filtering {
  import opened Statuses
  import opened Forest

  /** The unbuildable pass has handled the first `n` images. */
  ghost predicate Marking(f: Trees, rank: seq<nat>, req: Request, s: seq<Status>, n: nat)
    requires Shaped(f, rank)
  {
    && |s| == |f.parents|
    && (forall j :: 0 <= j < |s| ==>
          && (s[j].Unprocessed? || s[j].Unbuildable?)
          && (s[j].Unbuildable? ==> Doomed(f, rank, req, j))
          && (j < n && Doomed(f, rank, req, j) ==> s[j].Unbuildable?))
  }

  lemma MarkingStart(f: Trees, rank: seq<nat>, req: Request, s: seq<Status>)
    requires Shaped(f, rank) && |s| == |f.parents| && forall j :: 0 <= j < |s| ==> s[j].Unprocessed?
    ensures Marking(f, rank, req, s, 0)
    ensures req.unbuildable == {} ==> Marking(f, rank, req, s, |s|)
  {
  }

  /** An image is unbuildable when it is listed or its parent is unbuildable. */
  lemma DoomedStep(f: Trees, rank: seq<nat>, req: Request, i: nat)
    requires Shaped(f, rank) && i < |f.parents|
    ensures Doomed(f, rank, req, i) <==>
      f.names[i] in req.unbuildable || (f.parents[i].Some? && Doomed(f, rank, req, f.parents[i].value))
  {
    if f.names[i] in req.unbuildable {
      assert Above(f.parents, rank, i, i);
    }
    if f.parents[i].Some? && Doomed(f, rank, req, f.parents[i].value) {
      var a :| 0 <= a < |f.parents| && Above(f.parents, rank, a, f.parents[i].value) && f.names[a] in req.unbuildable;
      assert Above(f.parents, rank, a, i);
    }
  }

  /** Marking a doomed image. */
  lemma MarkingDoomed(f: Trees, rank: seq<nat>, req: Request, s: seq<Status>, n: nat, j: nat)
    requires Shaped(f, rank) && Marking(f, rank, req, s, n) && j < |s|
    requires f.names[j] in req.unbuildable || s[j].Unbuildable? || Doomed(f, rank, req, j)
    ensures Doomed(f, rank, req, j) && Marking(f, rank, req, s[j := Unbuildable], n)
  {
    DoomedStep(f, rank, req, j);
  }

  /** Once a doomed image is marked, and no other is, the pass can go on. */
  lemma MarkingNext(f: Trees, rank: seq<nat>, req: Request, s: seq<Status>, n: nat)
    requires Shaped(f, rank) && Marking(f, rank, req, s, n) && n < |s|
    ensures |s| == |f.parents|
    ensures Doomed(f, rank, req, n) ==> Marking(f, rank, req, s[n := Unbuildable], n + 1)
    ensures !Doomed(f, rank, req, n) ==> Marking(f, rank, req, s, n + 1)
  {
  }

  // ---------------------------------------------------------------- the matching pass

  /** The matching pass has handled the first `n` images. */
  ghost predicate Matching(f: Trees, rank: seq<nat>, req: Request, s: seq<Status>, n: nat)
    requires Shaped(f, rank)
  {
    && |s| == |f.parents|
    && (forall j :: 0 <= j < |s| ==> MatchingAt(f, rank, req, s[j], n, j))
  }

  ghost predicate MatchingAt(f: Trees, rank: seq<nat>, req: Request, v: Status, n: nat, j: nat)
    requires Shaped(f, rank) && j < |f.parents|
  {
    && (v.Unprocessed? || v.Unbuildable? || v.Matched? || v.Unmatched?)
    && (v.Unbuildable? <==> Doomed(f, rank, req, j))
    && (v.Matched? ==> Needed(f, rank, req, j))
    && (j < n ==> !v.Unprocessed?)
    && (j < n && !v.Unbuildable? && (req.wanted.None? || req.wanted.value(f.names[j])) ==> v.Matched?)
  }

  /** The parent of a matched image is matched, except that the parent of `x` may not be yet. */
  ghost predicate ClosedBut(f: Trees, s: seq<Status>, x: int) {
    forall j :: 0 <= j < |f.parents| && j != x && j < |s| && s[j].Matched? && f.parents[j].Some? ==>
      f.parents[j].value < |s| && s[f.parents[j].value].Matched?
  }

  lemma MatchingStart(f: Trees, rank: seq<nat>, req: Request, s: seq<Status>)
    requires Shaped(f, rank) && Marking(f, rank, req, s, |s|)
    ensures Matching(f, rank, req, s, 0) && ClosedBut(f, s, -1)
  {
  }

  /** Matching an image that is asked for and can be built. */
  lemma MatchingWanted(f: Trees, rank: seq<nat>, req: Request, s: seq<Status>, n: nat, j: nat)
    requires Shaped(f, rank) && Matching(f, rank, req, s, n) && ClosedBut(f, s, -1) && j < |s|
    requires !s[j].Unbuildable? && req.wanted.Some? && req.wanted.value(f.names[j])
    ensures Matching(f, rank, req, s[j := Matched], n) && ClosedBut(f, s[j := Matched], j)
  {
    assert Above(f.parents, rank, j, j);
    assert MatchingAt(f, rank, req, s[j], n, j);
    assert Needed(f, rank, req, j);
  }

  /** Matching the parent of a matched image never hits an unbuildable one. */
  lemma MatchingParent(f: Trees, rank: seq<nat>, req: Request, s: seq<Status>, n: nat, j: nat)
    requires Shaped(f, rank) && Matching(f, rank, req, s, n) && ClosedBut(f, s, j) && j < |s|
    requires s[j].Matched? && f.parents[j].Some?
    ensures var p := f.parents[j].value;
      p < |s| && !s[p].Unbuildable? && Matching(f, rank, req, s[p := Matched], n) && ClosedBut(f, s[p := Matched], p)
  {
    var p := f.parents[j].value;
    assert MatchingAt(f, rank, req, s[j], n, j);
    ParentsNeeded(f, rank, req, j);
    assert MatchingAt(f, rank, req, s[p], n, p);
  }

  lemma ClosedEnd(f: Trees, s: seq<Status>, j: nat)
    requires ClosedBut(f, s, j) && j < |f.parents|
    requires f.parents[j].Some? ==> f.parents[j].value < |s| && s[f.parents[j].value].Matched?
    ensures ClosedBut(f, s, -1)
  {
  }

  /** An image that is not asked for is unmatched for now; a descendant may still match it. */
  lemma MatchingOther(f: Trees, rank: seq<nat>, req: Request, s: seq<Status>, n: nat, j: nat)
    requires Shaped(f, rank) && Matching(f, rank, req, s, n) && ClosedBut(f, s, -1) && j < |s|
    requires !s[j].Unbuildable? && !s[j].Matched? && req.wanted.Some? && !req.wanted.value(f.names[j])
    ensures Matching(f, rank, req, s[j := Unmatched], n) && ClosedBut(f, s[j := Unmatched], -1)
  {
    assert MatchingAt(f, rank, req, s[j], n, j);
  }

  lemma MatchingNext(f: Trees, rank: seq<nat>, req: Request, s: seq<Status>, n: nat)
    requires Shaped(f, rank) && Matching(f, rank, req, s, n) && n < |s|
    requires s[n].Unbuildable? || s[n].Matched? || (s[n].Unmatched? && req.wanted.Some? && !req.wanted.value(f.names[n]))
    ensures Matching(f, rank, req, s, n + 1)
  {
    forall j | 0 <= j < |s| ensures MatchingAt(f, rank, req, s[j], n + 1, j) {
      assert MatchingAt(f, rank, req, s[j], n, j);
    }
  }

  /** The status after the matching pass. */
  ghost function Selected(f: Trees, rank: seq<nat>, req: Request, i: nat): Status
    requires Shaped(f, rank) && i < |f.parents|
  {
    if Doomed(f, rank, req, i) then Unbuildable
    else if Needed(f, rank, req, i) then Matched
    else Unmatched
  }

  /** The early-stopping walks have reached every image that is needed. */
  lemma MatchingDoneAt(f: Trees, rank: seq<nat>, req: Request, s: seq<Status>, i: nat)
    requires Shaped(f, rank) && Matching(f, rank, req, s, |s|) && ClosedBut(f, s, -1) && i < |s|
    ensures s[i] == Selected(f, rank, req, i)
  {
    assert MatchingAt(f, rank, req, s[i], |s|, i);
    if !Doomed(f, rank, req, i) && Needed(f, rank, req, i) && req.wanted.Some? {
      var y :| 0 <= y < |f.parents| && Above(f.parents, rank, i, y) && !Doomed(f, rank, req, y) && req.wanted.value(f.names[y]);
      assert MatchingAt(f, rank, req, s[y], |s|, y);
      var good := set j | 0 <= j < |s| && s[j].Matched?;
      Upwards(f.parents, rank, good, i, y);
    }
  }

  lemma MatchingDone(f: Trees, rank: seq<nat>, req: Request, s: seq<Status>)
    requires Shaped(f, rank) && Matching(f, rank, req, s, |s|) && ClosedBut(f, s, -1) && req.wanted.Some?
    ensures Skipping(f, rank, req, s, 0)
  {
    forall i | 0 <= i < |s| ensures s[i] == Selected(f, rank, req, i) {
      MatchingDoneAt(f, rank, req, s, i);
    }
  }

  /** The pass without a filter has handled the first `n` images. */
  ghost predicate SelectingAll(f: Trees, rank: seq<nat>, req: Request, s: seq<Status>, n: nat)
    requires Shaped(f, rank)
  {
    && |s| == |f.parents|
    && forall j :: 0 <= j < |s| ==>
         s[j] == if Doomed(f, rank, req, j) then Unbuildable else if j < n then Matched else Unprocessed
  }

  lemma SelectingAllStart(f: Trees, rank: seq<nat>, req: Request, s: seq<Status>)
    requires Shaped(f, rank) && Marking(f, rank, req, s, |s|)
    ensures SelectingAll(f, rank, req, s, 0)
  {
  }

  lemma SelectingAllNext(f: Trees, rank: seq<nat>, req: Request, s: seq<Status>, n: nat)
    requires Shaped(f, rank) && SelectingAll(f, rank, req, s, n) && n < |s|
    ensures SelectingAll(f, rank, req, if s[n] == Unbuildable then s else s[n := Matched], n + 1)
  {
  }

  lemma SelectingAllDone(f: Trees, rank: seq<nat>, req: Request, s: seq<Status>)
    requires Shaped(f, rank) && SelectingAll(f, rank, req, s, |s|) && req.wanted.None?
    ensures Skipping(f, rank, req, s, 0)
  {
  }

  // ---------------------------------------------------------------- the skipping pass

  /** The skipping pass has handled the first `n` images. */
  ghost predicate Skipping(f: Trees, rank: seq<nat>, req: Request, s: seq<Status>, n: nat)
    requires Shaped(f, rank)
  {
    && |s| == |f.parents|
    && forall j :: 0 <= j < |s| ==>
         s[j] == if j < n then Expected(f, rank, req, j) else Selected(f, rank, req, j)
  }

  lemma SkippingNext(f: Trees, rank: seq<nat>, req: Request, s: seq<Status>, n: nat)
    requires Shaped(f, rank) && Skipping(f, rank, req, s, n) && n < |s|
    ensures Skipping(f, rank, req, s, n + 1) || s[n].Matched?
    ensures s[n].Matched? && Spared(f, req, n) ==> Skipping(f, rank, req, s[n := Skipped], n + 1)
    ensures s[n].Matched? && !Spared(f, req, n) ==> Skipping(f, rank, req, s, n + 1)
    ensures Spared(f, req, n) <==> (req.cached.Some? && f.canonical[n] in req.cached.value) || (req.skipParents && |f.children[n]| != 0)
  {
  }
}
