/** What copying one configuration entry does to a file system, as a function. */
module Copying {
  import opened Statuses
  import opened FileSystems
  import opened Paths

  datatype Error = MissingRequiredSource | OSError | ImmutableConfig | InvalidConfig | StateMismatch

  /** An entry of `config_files`. */
  datatype Data = Data(source: string, dest: string, props: Props, optional: bool, merge: bool)
  {
    function From(): Path { Components(source) }

    function To(): Path { Components(ResolvedByJoin(dest, source)) }
  }

  /** A proper ancestor of the path is a file. */
  ghost predicate FileAbove(fs: FS, path: Path) {
    exists k :: 0 <= k < |path| && path[..k] in fs && fs[path[..k]].File?
  }

  /** Source and destination are different trees. */
  predicate Copyable(d: Data) { d.dest != "" ==> Apart(d.From(), d.To()) }

  /** `os.path.exists`. */
  predicate Exists(fs: FS, path: string) { path != "" && Components(path) in fs }

  /** What `copy` deletes before it creates the parents; the empty path never exists. */
  function Cleared(fs: FS, d: Data): FS {
    if d.merge || d.dest == "" then fs else Removed(fs, d.To())
  }

  /**
   * `ConfigFile.copy`: the new file system, and the exception if one leaves it.  For a
   * destination without a slash the parent to create has the empty name, which fails after
   * the destination has been deleted.
   */
  ghost function Copied(fs: FS, d: Data): (FS, Option<Error>) {
    if !Exists(fs, d.source) then (fs, if d.optional then None else Some(MissingRequiredSource))
    else if !HasDirname(d.dest) then (Cleared(fs, d), Some(OSError))
    else if FileAbove(fs, d.To()) then (fs, Some(OSError))
    else (if d.merge then Overlay(fs, d.props, d.From(), d.To()) else Replace(fs, d.props, d.From(), d.To()), None)
  }

  // ---------------------------------------------------------------- creating parents

  function WithParents(fs: FS, dst: Path): FS {
    fs + map p | p in (set k | 0 <= k < |dst| :: dst[..k]) && p !in fs :: NEW_DIR
  }

  lemma WithParentsAt(fs: FS, dst: Path, p: Path)
    ensures Lookup(WithParents(fs, dst), p) == if p <= dst && p != dst && p !in fs then Some(NEW_DIR) else Lookup(fs, p)
  {
    if p <= dst && p != dst {
      assert p == dst[..|p|];
    }
  }

  lemma WithParentsWF(fs: FS, dst: Path)
    requires WF(fs) && !FileAbove(fs, dst)
    ensures WF(WithParents(fs, dst)) && (dst != [] ==> IsDir(WithParents(fs, dst), Parent(dst)))
  {
    var now := WithParents(fs, dst);
    WithParentsAt(fs, dst, []);
    assert dst[..0] == [];
    forall p | p in now && p != [] ensures IsDir(now, Parent(p)) {
      WithParentsAt(fs, dst, p);
      WithParentsAt(fs, dst, Parent(p));
      if p !in fs {
        assert Parent(p) == dst[..|p| - 1];
      }
    }
    if dst != [] {
      WithParentsAt(fs, dst, Parent(dst));
      assert Parent(dst) == dst[..|dst| - 1];
    }
  }

  /** Creating the parents first makes no difference to an overlay. */
  lemma OverlayAfterParents(fs: FS, props: Props, src: Path, dst: Path)
    requires Apart(src, dst)
    ensures Overlay(WithParents(fs, dst), props, src, dst) == Overlay(fs, props, src, dst)
  {
    var mid := WithParents(fs, dst);
    var a, b := Overlay(mid, props, src, dst), Overlay(fs, props, src, dst);
    forall r: Path ensures Lookup(mid, src + r) == Lookup(fs, src + r) {
      WithParentsAt(fs, dst, src + r);
      ApartBelow(src, dst, r);
    }
    forall p ensures Lookup(a, p) == Lookup(b, p) {
      OverlayLookup(mid, props, src, dst, p);
      OverlayLookup(fs, props, src, dst, p);
      WithParentsAt(fs, dst, p);
      if dst <= p {
        var r := p[|dst|..];
        assert Lookup(mid, src + r) == Lookup(fs, src + r);
        CoveredSame(mid, fs, src, r);
      }
    }
    Extensional(a, b);
  }

  lemma CoveredSame(a: FS, b: FS, src: Path, r: Path)
    requires forall q: Path :: Lookup(a, src + q) == Lookup(b, src + q)
    ensures Covered(a, src, r) <==> Covered(b, src, r)
  {
    forall k | 0 <= k < |r| ensures src + r[..k] in a && a[src + r[..k]].File? <==> src + r[..k] in b && b[src + r[..k]].File? {
      assert Lookup(a, src + r[..k]) == Lookup(b, src + r[..k]);
    }
  }

  /** Deleting the destination, creating its parents and merging is a replacement. */
  lemma OverlayAfterDelete(fs: FS, props: Props, src: Path, dst: Path)
    requires Apart(src, dst)
    ensures Overlay(WithParents(Removed(fs, dst), dst), props, src, dst) == Replace(fs, props, src, dst)
  {
    OverlayAfterParents(Removed(fs, dst), props, src, dst);
    var mid := Removed(fs, dst);
    var a, b := Overlay(mid, props, src, dst), Replace(fs, props, src, dst);
    forall p ensures Lookup(a, p) == Lookup(b, p) {
      OverlayLookup(mid, props, src, dst, p);
      ReplaceLookup(fs, props, src, dst, p);
      if dst <= p {
        ApartBelow(src, dst, p[|dst|..]);
      }
    }
    Extensional(a, b);
  }

  /** Deleting the destination does not change what is above it. */
  lemma FileAboveRemoved(fs: FS, dst: Path)
    ensures FileAbove(Removed(fs, dst), dst) <==> FileAbove(fs, dst)
  {
    forall k | 0 <= k < |dst| ensures Lookup(Removed(fs, dst), dst[..k]) == Lookup(fs, dst[..k]) {
    }
    assert forall k :: 0 <= k < |dst| ==> !(dst <= dst[..k]);
  }

  /** Under a file there is nothing to delete. */
  lemma NothingUnderFile(fs: FS, dst: Path)
    requires WF(fs) && FileAbove(fs, dst)
    ensures Removed(fs, dst) == fs
  {
    var k :| 0 <= k < |dst| && dst[..k] in fs && fs[dst[..k]].File?;
    forall p | p in fs ensures !(dst <= p) {
      if dst <= p {
        assert dst[..k] <= p && dst[..k] != p;
        NothingBelow(fs, dst[..k], p);
      }
    }
  }
}
