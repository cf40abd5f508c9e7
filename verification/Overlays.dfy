/** What copying a configuration entry promises. */
module Overlays {
  import opened Statuses
  import opened FileSystems
  import opened Paths
  import opened Copying

  /** The source of an overlay stays as it is. */
  lemma OverlayKeepsSource(fs: FS, props: Props, src: Path, dst: Path, r: Path)
    requires Apart(src, dst)
    ensures Lookup(Overlay(fs, props, src, dst), src + r) == Lookup(fs, src + r)
  {
    OverlayLookup(fs, props, src, dst, src + r);
    ApartBelow(src, dst, r);
  }

  /** Merging a second time changes nothing. */
  lemma OverlayIdempotent(fs: FS, props: Props, src: Path, dst: Path)
    requires Apart(src, dst)
    ensures Overlay(Overlay(fs, props, src, dst), props, src, dst) == Overlay(fs, props, src, dst)
  {
    var once := Overlay(fs, props, src, dst);
    var twice := Overlay(once, props, src, dst);
    forall r: Path ensures Lookup(once, src + r) == Lookup(fs, src + r) {
      OverlayKeepsSource(fs, props, src, dst, r);
    }
    forall p ensures Lookup(twice, p) == Lookup(once, p) {
      OverlayLookup(fs, props, src, dst, p);
      OverlayLookup(once, props, src, dst, p);
      if dst <= p {
        var r := p[|dst|..];
        assert Lookup(once, src + r) == Lookup(fs, src + r);
        CoveredSame(once, fs, src, r);
      }
    }
    Extensional(twice, once);
  }

  /** Without merging, the destination becomes exactly the source tree, and nothing else but created parents changes. */
  lemma ReplacedIsSource(fs: FS, d: Data, r: Path)
    requires Exists(fs, d.source) && Copied(fs, d).1.None? && !d.merge
    ensures var now := Copied(fs, d).0;
      && Lookup(now, d.To() + r) == (if d.From() + r in fs then Some(Placed(d.props, fs[d.From() + r])) else None)
      && (forall p :: !(d.To() <= p) && p in fs ==> Lookup(now, p) == Lookup(fs, p))
      && (forall p :: !(d.To() <= p) && p !in fs && p in now ==> p <= d.To() && now[p] == NEW_DIR)
  {
    var now := Copied(fs, d).0;
    ReplaceLookup(fs, d.props, d.From(), d.To(), d.To() + r);
    assert (d.To() + r)[|d.To()|..] == r;
    forall p | !(d.To() <= p) ensures Lookup(now, p) == if p <= d.To() && p !in fs then Some(NEW_DIR) else Lookup(fs, p) {
      ReplaceLookup(fs, d.props, d.From(), d.To(), p);
    }
    assert forall p :: p in now ==> Lookup(now, p) == Some(now[p]);
  }

  /** With merging, directories are united and the source wins everywhere else. */
  lemma MergedIsUnion(fs: FS, d: Data, r: Path)
    requires WF(fs) && Exists(fs, d.source) && Copied(fs, d).1.None? && d.merge && Copyable(d)
    ensures var now := Copied(fs, d).0;
      && (d.From() + r in fs ==> Lookup(now, d.To() + r) == Some(Placed(d.props, fs[d.From() + r])))
      && (d.From() + r !in fs && Covered(fs, d.From(), r) ==> d.To() + r !in now)
      && (d.From() + r !in fs && !Covered(fs, d.From(), r) ==> Lookup(now, d.To() + r) == Lookup(fs, d.To() + r))
      && Lookup(now, d.From() + r) == Lookup(fs, d.From() + r)
  {
    OverlayLookup(fs, d.props, d.From(), d.To(), d.To() + r);
    assert (d.To() + r)[|d.To()|..] == r;
    OverlayKeepsSource(fs, d.props, d.From(), d.To(), r);
  }

  // ---------------------------------------------------------------- the result is a file system

  lemma OverlayWF(fs: FS, props: Props, src: Path, dst: Path)
    requires WF(fs) && Apart(src, dst) && !FileAbove(fs, dst)
    ensures WF(Overlay(fs, props, src, dst))
  {
    var now := Overlay(fs, props, src, dst);
    OverlayLookup(fs, props, src, dst, []);
    assert !(dst <= []) by { assert dst != []; }
    forall p | p in now && p != [] ensures IsDir(now, Parent(p)) {
      OverlayLookup(fs, props, src, dst, p);
      OverlayLookup(fs, props, src, dst, Parent(p));
      OverlayParent(fs, props, src, dst, p);
    }
  }

  lemma OverlayParent(fs: FS, props: Props, src: Path, dst: Path, p: Path)
    requires WF(fs) && Apart(src, dst) && !FileAbove(fs, dst)
    requires p != [] && OverlayAt(fs, props, src, dst, p).Some?
    ensures var q := OverlayAt(fs, props, src, dst, Parent(p)); q.Some? && q.value.Dir?
  {
    if dst <= p && p != dst {
      var r := p[|dst|..];
      assert Parent(p)[|dst|..] == Parent(r) && dst <= Parent(p);
      assert Parent(src + r) == src + Parent(r);
      if src + r !in fs {
        CoveredParent(fs, src, r);
      }
    } else if p <= dst {
      assert Parent(p) == dst[..|p| - 1];
    }
  }

  lemma CoveredParent(fs: FS, src: Path, r: Path)
    requires r != []
    ensures Covered(fs, src, Parent(r)) ==> Covered(fs, src, r)
    ensures src + Parent(r) in fs && fs[src + Parent(r)].File? ==> Covered(fs, src, r)
  {
    assert r[..|r| - 1] == Parent(r);
    forall k | 0 <= k < |r| ensures r[..k] == Parent(r)[..k] {
    }
    if Covered(fs, src, Parent(r)) {
      var k :| 0 <= k < |Parent(r)| && src + Parent(r)[..k] in fs && fs[src + Parent(r)[..k]].File?;
      assert src + r[..k] in fs;
    }
  }

  lemma ReplaceWF(fs: FS, props: Props, src: Path, dst: Path)
    requires WF(fs) && Apart(src, dst) && !FileAbove(fs, dst)
    ensures WF(Replace(fs, props, src, dst))
  {
    var now := Replace(fs, props, src, dst);
    ReplaceLookup(fs, props, src, dst, []);
    assert !(dst <= []) by { assert dst != []; }
    forall p | p in now && p != [] ensures IsDir(now, Parent(p)) {
      ReplaceLookup(fs, props, src, dst, p);
      ReplaceLookup(fs, props, src, dst, Parent(p));
      ReplaceParent(fs, props, src, dst, p);
    }
  }

  lemma ReplaceParent(fs: FS, props: Props, src: Path, dst: Path, p: Path)
    requires WF(fs) && Apart(src, dst) && !FileAbove(fs, dst)
    requires p != [] && ReplaceAt(fs, props, src, dst, p).Some?
    ensures var q := ReplaceAt(fs, props, src, dst, Parent(p)); q.Some? && q.value.Dir?
  {
    if dst <= p && p != dst {
      var r := p[|dst|..];
      assert Parent(p)[|dst|..] == Parent(r) && dst <= Parent(p);
      assert Parent(src + r) == src + Parent(r);
    } else if p <= dst {
      assert Parent(p) == dst[..|p| - 1];
    }
  }

  lemma RemovedWF(fs: FS, path: Path)
    requires WF(fs) && path != []
    ensures WF(Removed(fs, path))
  {
    assert forall p :: p in fs && p != [] ==> Parent(p) <= p;
  }

  lemma CopiedWF(fs: FS, d: Data)
    requires WF(fs) && Copyable(d)
    ensures WF(Copied(fs, d).0)
  {
    if d.dest != "" {
      RemovedWF(fs, d.To());
      if !FileAbove(fs, d.To()) {
        OverlayWF(fs, d.props, d.From(), d.To());
        ReplaceWF(fs, d.props, d.From(), d.To());
      }
    }
  }

  // ---------------------------------------------------------------- what a copy means

  /** Where the copy found something at its source: each of its nodes is copied, and what else there is below the destination. */
  ghost predicate TreeInstalled(before: FS, now: FS, d: Data) {
    && (forall r: Path :: d.From() + r in before ==>
          d.To() + r in now && CopyOfNode(d.props, before[d.From() + r], now[d.To() + r]))
    && (forall r: Path :: d.From() + r !in before ==>
          Lookup(now, d.To() + r) ==
            if !d.merge || (exists k :: 0 <= k < |r| && d.From() + r[..k] in before && before[d.From() + r[..k]].File?) then None
            else Lookup(before, d.To() + r))
  }

  /** Nothing outside the tree at the destination changes, except that missing directories above it are created. */
  ghost predicate RestKept(before: FS, now: FS, to: Path) {
    && (forall p :: !(to <= p) && p in before ==> Lookup(now, p) == Lookup(before, p))
    && (forall p :: !(to <= p) && p !in before ==>
          Lookup(now, p) == if p <= to then Some(Dir(Attr("root:root", 0x1ed))) else None)
  }

  /** What `copy` promises, case by case, on the nodes of the file system. */
  ghost predicate CopyMeans(before: FS, now: FS, d: Data, error: Option<Error>) {
    if !Exists(before, d.source) then
      now == before && error == if d.optional then None else Some(MissingRequiredSource)
    else if !HasDirname(d.dest) then
      error == Some(OSError)
      && forall p :: Lookup(now, p) == if !d.merge && d.dest != "" && d.To() <= p then None else Lookup(before, p)
    else if FileAbove(before, d.To()) then
      now == before && error == Some(OSError)
    else
      error == None && TreeInstalled(before, now, d) && RestKept(before, now, d.To())
  }

  lemma PlacedCopies(fs: FS, now: FS, d: Data, r: Path)
    requires d.From() + r in fs ==> Lookup(now, d.To() + r) == Some(Placed(d.props, fs[d.From() + r]))
    ensures d.From() + r in fs ==> d.To() + r in now && CopyOfNode(d.props, fs[d.From() + r], now[d.To() + r])
  {
    hide Components, CopyOfNode, Placed;
    if d.From() + r in fs {
      PlacedMeans(d.props, fs[d.From() + r], now[d.To() + r]);
    }
  }

  lemma CopiedInstalls(fs: FS, d: Data)
    requires WF(fs) && Copyable(d) && Exists(fs, d.source) && Copied(fs, d).1.None?
    ensures TreeInstalled(fs, Copied(fs, d).0, d)
  {
    var now := Copied(fs, d).0;
    hide Copied, Components, Placed, CopyOfNode, Overlay, Replace;
    forall r: Path
      ensures d.From() + r in fs ==> d.To() + r in now && CopyOfNode(d.props, fs[d.From() + r], now[d.To() + r])
      ensures d.From() + r !in fs ==>
        Lookup(now, d.To() + r) == if !d.merge || Covered(fs, d.From(), r) then None else Lookup(fs, d.To() + r)
    {
      if d.merge { MergedIsUnion(fs, d, r); } else { ReplacedIsSource(fs, d, r); }
      PlacedCopies(fs, now, d, r);
    }
  }

  lemma CopiedKeepsRest(fs: FS, d: Data)
    requires Exists(fs, d.source) && Copied(fs, d).1.None?
    ensures RestKept(fs, Copied(fs, d).0, d.To())
  {
    var now := Copied(fs, d).0;
    forall p | !(d.To() <= p)
      ensures Lookup(now, p) == if p in fs then Lookup(fs, p) else if p <= d.To() then Some(NEW_DIR) else None
    {
      OverlayLookup(fs, d.props, d.From(), d.To(), p);
      ReplaceLookup(fs, d.props, d.From(), d.To(), p);
    }
    hide Copied, Components;
  }

  /** Copying does what it promises. */
  lemma CopiedMeans(fs: FS, d: Data)
    requires WF(fs) && Copyable(d)
    ensures CopyMeans(fs, Copied(fs, d).0, d, Copied(fs, d).1)
  {
    hide Components, Overlay, Replace, TreeInstalled, RestKept, FileAbove, WF;
    if Exists(fs, d.source) && Copied(fs, d).1.None? {
      CopiedInstalls(fs, d);
      CopiedKeepsRest(fs, d);
    }
  }

  /** The promise leaves nothing open: it determines the file system and the exception. */
  lemma CopyMeansOne(fs: FS, a: FS, b: FS, d: Data, e: Option<Error>, f: Option<Error>)
    requires CopyMeans(fs, a, d, e) && CopyMeans(fs, b, d, f)
    ensures a == b && e == f
  {
    hide Components, CopyOfNode, FileAbove;
    if Exists(fs, d.source) {
      forall p ensures Lookup(a, p) == Lookup(b, p) {
        if HasDirname(d.dest) && !FileAbove(fs, d.To()) && d.To() <= p {
          var r := p[|d.To()|..];
          assert p == d.To() + r;
          if d.From() + r in fs {
            PlacedMeans(d.props, fs[d.From() + r], a[p]);
            PlacedMeans(d.props, fs[d.From() + r], b[p]);
          }
        }
      }
      Extensional(a, b);
    }
  }

  const NOVA := Data("/s/nova.conf", "/etc/nova/nova.conf", Configured("nova", 0x180), false, false)

  lemma NovaNames()
    ensures Components("/s") == ["s"] && Components("/etc") == ["etc"] && Components("/nova") == ["nova"]
    ensures Components("/nova.conf") == ["nova.conf"]
  {
    hide Components;
    OnePiece("s");
    OnePiece("etc");
    OnePiece("nova");
    OnePiece("nova.conf");
    assert "/" + "s" == "/s" && "/" + "etc" == "/etc" && "/" + "nova" == "/nova" && "/" + "nova.conf" == "/nova.conf";
  }

  lemma NovaConcat()
    ensures Components("/s/nova.conf") == Components("/s") + Components("/nova.conf")
    ensures Components("/etc/nova/nova.conf") == Components("/etc") + Components("/nova") + Components("/nova.conf")
  {
    hide Components;
    ComponentsConcat("/s", "/nova.conf");
    ComponentsConcat("/etc", "/nova");
    ComponentsConcat("/etc/nova", "/nova.conf");
    assert "/s" + "/nova.conf" == "/s/nova.conf" && "/etc" + "/nova" == "/etc/nova";
    assert "/etc/nova" + "/nova.conf" == "/etc/nova/nova.conf";
  }

  lemma NovaPaths()
    ensures NOVA.From() == ["s", "nova.conf"] && NOVA.To() == ["etc", "nova", "nova.conf"]
  {
    hide Components;
    NovaNames();
    NovaConcat();
    assert NOVA.dest[|NOVA.dest| - 1] == 'f';
    assert ["s"] + ["nova.conf"] == ["s", "nova.conf"] && ["etc"] + ["nova"] + ["nova.conf"] == ["etc", "nova", "nova.conf"];
  }

  /** A configured owner and mode are applied: the file that everyone can read becomes one that only its service can. */
  lemma OwnerApplied(fs: FS, content: string)
    requires WF(fs) && !FileAbove(fs, ["etc", "nova", "nova.conf"])
    requires Lookup(fs, ["s", "nova.conf"]) == Some(File(content, Attr("root:root", 0x1a4)))
    ensures Copied(fs, NOVA).1 == None
    ensures Lookup(Copied(fs, NOVA).0, ["etc", "nova", "nova.conf"]) == Some(File(content, Attr("nova", 0x180)))
  {
    hide Components, Copied, WF, CopyOfNode;
    NovaPaths();
    assert NOVA.dest[0] == '/' && NOVA.source[0] == '/';
    var a, b := NOVA.From(), NOVA.To();
    assert |a[0]| != |b[0]|;
    CopiedMeans(fs, NOVA);
    assert a + [] == a && b + [] == b;
    PlacedMeans(NOVA.props, fs[a], Copied(fs, NOVA).0[b]);
  }
}
