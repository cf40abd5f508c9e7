/** Why the recursive merge is an overlay: how far it has got, on file systems as values. */
module Merging {
  import opened Statuses
  import opened FileSystems

  /** What is at `p` while the children `done` of `src` have been merged. */
  ghost function MergingAt(fs: FS, props: Props, src: Path, dst: Path, done: set<string>, p: Path): Option<Node>
    requires src in fs
  {
    if p == dst then Some(Placed(props, fs[src]))
    else if dst <= p && p[|dst|] in done then OverlayAt(fs, props, src, dst, p)
    else Lookup(fs, p)
  }

  ghost predicate Merged(fs: FS, now: FS, props: Props, src: Path, dst: Path, done: set<string>) {
    src in fs && forall p :: Lookup(now, p) == MergingAt(fs, props, src, dst, done, p)
  }

  /** Making the destination a directory with the right properties. */
  lemma MergedStart(fs: FS, now: FS, props: Props, src: Path, dst: Path)
    requires WF(fs) && IsDir(fs, src) && !IsDir(fs, dst)
    requires now == Removed(fs, dst)[dst := Placed(props, fs[src])]
    ensures Merged(fs, now, props, src, dst, {})
  {
    forall p ensures Lookup(now, p) == MergingAt(fs, props, src, dst, {}, p) {
      if dst <= p && p != dst {
        NothingBelow(fs, dst, p);
      }
    }
  }

  lemma MergedStartDir(fs: FS, now: FS, props: Props, src: Path, dst: Path)
    requires WF(fs) && IsDir(fs, src) && IsDir(fs, dst)
    requires now == fs[dst := Placed(props, fs[src])]
    ensures Merged(fs, now, props, src, dst, {})
  {
  }

  /** The source is not touched. */
  lemma SourceKept(fs: FS, now: FS, props: Props, src: Path, dst: Path, done: set<string>, r: Path)
    requires Merged(fs, now, props, src, dst, done) && Apart(src, dst)
    ensures Lookup(now, src + r) == Lookup(fs, src + r)
  {
    ApartBelow(src, dst, r);
    assert Lookup(now, src + r) == MergingAt(fs, props, src, dst, done, src + r);
  }

  lemma CoveredChild(fs: FS, now: FS, src: Path, c: string, r: Path)
    requires IsDir(fs, src) && forall q: Path :: Lookup(now, src + q) == Lookup(fs, src + q)
    ensures Covered(now, src + [c], r) <==> Covered(fs, src, [c] + r)
  {
    var s := src + [c];
    forall k | 0 <= k <= |r| ensures s + r[..k] == src + ([c] + r)[..k + 1] && Lookup(now, s + r[..k]) == Lookup(fs, s + r[..k]) {
      assert s + r[..k] == src + ([c] + r[..k]);
    }
    if Covered(now, s, r) {
      var k :| 0 <= k < |r| && s + r[..k] in now && now[s + r[..k]].File?;
      assert Lookup(now, s + r[..k]) == Lookup(fs, s + r[..k]);
      assert s + r[..k] == src + ([c] + r)[..k + 1];
    }
    if Covered(fs, src, [c] + r) {
      var k :| 0 <= k < |[c] + r| && src + ([c] + r)[..k] in fs && fs[src + ([c] + r)[..k]].File?;
      if k == 0 {
        assert src + ([c] + r)[..0] == src;
      } else {
        assert s + r[..k - 1] == src + ([c] + r)[..k];
        assert Lookup(now, s + r[..k - 1]) == Lookup(fs, s + r[..k - 1]);
      }
    }
  }

  lemma MergedInside(fs: FS, now: FS, props: Props, src: Path, dst: Path, done: set<string>, c: string, p: Path)
    requires Merged(fs, now, props, src, dst, done) && Apart(src, dst) && IsDir(fs, src) && c !in done
    requires dst + [c] <= p
    ensures OverlayAt(now, props, src + [c], dst + [c], p) == MergingAt(fs, props, src, dst, done + {c}, p)
  {
    forall q: Path ensures Lookup(now, src + q) == Lookup(fs, src + q) {
      SourceKept(fs, now, props, src, dst, done, q);
    }
    var r := p[|dst| + 1..];
    assert p == dst + [c] + r && p[|dst|..] == [c] + r;
    assert src + [c] + r == src + ([c] + r);
    assert Lookup(now, src + ([c] + r)) == Lookup(fs, src + ([c] + r));
    CoveredChild(fs, now, src, c, r);
    assert Lookup(now, p) == MergingAt(fs, props, src, dst, done, p);
  }

  lemma MergedOutside(fs: FS, now: FS, props: Props, src: Path, dst: Path, done: set<string>, c: string, p: Path)
    requires Merged(fs, now, props, src, dst, done) && c !in done && WF(now)
    requires !(dst + [c] <= p)
    ensures OverlayAt(now, props, src + [c], dst + [c], p) == MergingAt(fs, props, src, dst, done + {c}, p)
  {
    hide Covered, WF;
    assert Lookup(now, p) == MergingAt(fs, props, src, dst, done, p);
    assert Lookup(now, dst) == MergingAt(fs, props, src, dst, done, dst);
    if p == dst {
    } else if dst <= p {
      assert p[..|dst| + 1] == dst + [p[|dst|]];
    } else if p <= dst + [c] {
      assert p == (dst + [c])[..|p|] == dst[..|p|];
      AncestorIsDir(now, dst, |p|);
    }
  }

  /** Merging one more child. */
  lemma MergedNext(fs: FS, now: FS, next: FS, props: Props, src: Path, dst: Path, done: set<string>, c: string)
    requires Merged(fs, now, props, src, dst, done) && Apart(src, dst) && IsDir(fs, src) && c !in done && WF(now)
    requires next == Overlay(now, props, src + [c], dst + [c])
    ensures Merged(fs, next, props, src, dst, done + {c})
  {
    hide Overlay, OverlayAt, MergingAt, Apart, WF, IsDir;
    forall p ensures Lookup(next, p) == MergingAt(fs, props, src, dst, done + {c}, p) {
      OverlayLookup(now, props, src + [c], dst + [c], p);
      if dst + [c] <= p {
        MergedInside(fs, now, props, src, dst, done, c, p);
      } else {
        MergedOutside(fs, now, props, src, dst, done, c, p);
      }
    }
  }

  /** When all children are merged, the destination is the overlay. */
  lemma MergedEnd(fs: FS, now: FS, props: Props, src: Path, dst: Path, done: set<string>)
    requires Merged(fs, now, props, src, dst, done) && WF(fs) && IsDir(fs, src)
    requires dst != [] && IsDir(fs, Parent(dst))
    requires forall c :: c in done <==> src + [c] in fs
    ensures now == Overlay(fs, props, src, dst)
  {
    forall p ensures Lookup(now, p) == Lookup(Overlay(fs, props, src, dst), p) {
      OverlayLookup(fs, props, src, dst, p);
      MergedEndAt(fs, now, props, src, dst, done, p);
    }
    Extensional(now, Overlay(fs, props, src, dst));
  }

  lemma MergedEndAt(fs: FS, now: FS, props: Props, src: Path, dst: Path, done: set<string>, p: Path)
    requires Merged(fs, now, props, src, dst, done) && WF(fs) && IsDir(fs, src)
    requires dst != [] && IsDir(fs, Parent(dst))
    requires forall c :: c in done <==> src + [c] in fs
    ensures Lookup(now, p) == OverlayAt(fs, props, src, dst, p)
  {
    assert Lookup(now, p) == MergingAt(fs, props, src, dst, done, p);
    if p == dst {
      assert src + p[|dst|..] == src;
    } else if dst <= p && p[|dst|] !in done {
      NothingMerged(fs, src, p[|dst|..]);
    } else if p <= dst {
      assert p == dst[..|p|] == Parent(dst)[..|p|];
      if p != Parent(dst) { AncestorIsDir(fs, Parent(dst), |p|); }
    }
  }

  /** Nothing in the source lies over a path whose first name is not in the source. */
  lemma NothingMerged(fs: FS, src: Path, r: Path)
    requires WF(fs) && IsDir(fs, src) && r != [] && src + [r[0]] !in fs
    ensures src + r !in fs && !Covered(fs, src, r)
  {
    forall k | 1 <= k <= |r| ensures src + r[..k] !in fs {
      var q := src + r[..k];
      assert q[..|src| + 1] == src + [r[0]];
      if k > 1 { NothingBelow(fs, src + [r[0]], q); } else { assert r[..k] == [r[0]]; }
    }
    assert r[..|r|] == r && src + r[..0] == src;
  }

  /** Copying a file over whatever is at the destination is an overlay too. */
  lemma FileIsOverlay(fs: FS, props: Props, src: Path, dst: Path)
    requires WF(fs) && src in fs && fs[src].File? && dst != [] && IsDir(fs, Parent(dst)) && Apart(src, dst)
    ensures Removed(fs, dst)[dst := Placed(props, fs[src])] == Overlay(fs, props, src, dst)
  {
    var now := Removed(fs, dst)[dst := Placed(props, fs[src])];
    forall p ensures Lookup(now, p) == Lookup(Overlay(fs, props, src, dst), p) {
      OverlayLookup(fs, props, src, dst, p);
      FileOverlayAt(fs, props, src, dst, p);
    }
    Extensional(now, Overlay(fs, props, src, dst));
  }

  lemma FileOverlayAt(fs: FS, props: Props, src: Path, dst: Path, p: Path)
    requires WF(fs) && src in fs && fs[src].File? && dst != [] && IsDir(fs, Parent(dst))
    ensures Lookup(Removed(fs, dst)[dst := Placed(props, fs[src])], p) == OverlayAt(fs, props, src, dst, p)
  {
    if p == dst {
      assert src + p[|dst|..] == src;
    } else if dst <= p {
      var r := p[|dst|..];
      NothingBelow(fs, src, src + r);
      assert src + r[..0] == src;
    } else if p <= dst {
      assert p == dst[..|p|] == Parent(dst)[..|p|];
      if p != Parent(dst) { AncestorIsDir(fs, Parent(dst), |p|); }
    }
  }

  // ---------------------------------------------------------------- the recursion ends

  function TreeAt(fs: FS, src: Path): set<Path> { set q | q in fs && src <= q }

  /** The trees below the children are smaller. */
  lemma ChildTreeSmaller(fs: FS, now: FS, src: Path, c: string)
    requires src in fs && forall q: Path :: Lookup(now, src + q) == Lookup(fs, src + q)
    ensures |TreeAt(now, src + [c])| < |TreeAt(fs, src)|
  {
    var small, large := TreeAt(now, src + [c]), TreeAt(fs, src);
    forall q | q in small ensures q in large && q != src {
      assert q == src + [c] + q[|src| + 1..];
      var r := [c] + q[|src| + 1..];
      assert q == src + r;
      assert Lookup(now, src + r) == Lookup(fs, src + r);
    }
    assert small <= large - {src};
    SubsetSize(small, large - {src});
  }

  /** While children are merged, those of the source stay the same. */
  lemma ChildrenKept(fs: FS, now: FS, props: Props, src: Path, dst: Path, done: set<string>)
    requires Merged(fs, now, props, src, dst, done) && Apart(src, dst)
    ensures forall c :: src + [c] in now <==> src + [c] in fs
  {
    forall c ensures src + [c] in now <==> src + [c] in fs {
      SourceKept(fs, now, props, src, dst, done, [c]);
    }
  }

  /** The recursive call for a child of the source may be made, and is on a smaller tree. */
  lemma NextChild(fs: FS, now: FS, props: Props, src: Path, dst: Path, done: set<string>, c: string)
    requires Merged(fs, now, props, src, dst, done) && Apart(src, dst) && IsDir(fs, src) && src + [c] in fs
    ensures Apart(src + [c], dst + [c]) && dst + [c] != [] && IsDir(now, Parent(dst + [c])) && src + [c] in now
    ensures |TreeAt(now, src + [c])| < |TreeAt(fs, src)|
  {
    forall q: Path ensures Lookup(now, src + q) == Lookup(fs, src + q) {
      SourceKept(fs, now, props, src, dst, done, q);
    }
    assert Lookup(now, src + [c]) == Lookup(fs, src + [c]);
    ChildTreeSmaller(fs, now, src, c);
    ApartBelow(src, dst, [c]);
    ApartBelow(dst, src + [c], [c]);
    assert Parent(dst + [c]) == dst;
    assert Lookup(now, dst) == MergingAt(fs, props, src, dst, done, dst);
  }

  lemma {:induction false} SubsetSize<T>(a: set<T>, b: set<T>)
    requires a <= b
    ensures |a| <= |b|
  {
    if a != {} {
      var x :| x in a;
      SubsetSize(a - {x}, b - {x});
    }
  }
}
