/** A file system as a map from paths to nodes, its primitive operations, and what overlaying one tree on another means. */
module FileSystems {
  import opened Statuses

  type Path = seq<string>

  datatype Attr = Attr(owner: string, mode: bv12)

  datatype Node =
    | File(content: string, attr: Attr)
    | Dir(attr: Attr)

  type FS = map<Path, Node>

  const NEW_DIR := Dir(Attr("root:root", 0x1ed))

  function Parent(p: Path): Path
    requires p != []
  {
    p[..|p| - 1]
  }

  predicate IsDir(fs: FS, p: Path) { p in fs && fs[p].Dir? }

  /** Every node lies in a directory. */
  ghost predicate WF(fs: FS) {
    && IsDir(fs, [])
    && forall p :: p in fs && p != [] ==> IsDir(fs, Parent(p))
  }

  function Lookup(fs: FS, p: Path): Option<Node> {
    if p in fs then Some(fs[p]) else None
  }

  /** Neither path is the other or above it. */
  predicate Apart(a: Path, b: Path) { !(a <= b) && !(b <= a) }

  lemma {:induction false} AncestorIsDir(fs: FS, p: Path, k: nat)
    requires WF(fs) && p in fs && k < |p|
    ensures IsDir(fs, p[..k])
    decreases |p|
  {
    assert IsDir(fs, Parent(p));
    if k < |p| - 1 {
      AncestorIsDir(fs, Parent(p), k);
      assert Parent(p)[..k] == p[..k];
    }
  }

  lemma NothingBelow(fs: FS, d: Path, p: Path)
    requires WF(fs) && !IsDir(fs, d) && d <= p && p != d
    ensures p !in fs
  {
    assert p[..|d|] == d;
    if p in fs {
      AncestorIsDir(fs, p, |d|);
    }
  }

  lemma ApartBelow(a: Path, b: Path, r: Path)
    requires Apart(a, b)
    ensures !(b <= a + r) && !(a + r <= b)
  {
    assert |b| <= |a| ==> (a + r)[..|b|] == a[..|b|];
    if |a| <= |b| {
      assert (a + r)[..|a|] == a;
    }
    assert a <= a + r;
  }

  // ---------------------------------------------------------------- what copying means

  /** Properties of a copy: those of the source, or the configured ones. */
  datatype Props = Preserve | Configured(owner: string, mode: bv12)

  /** A directory that may be read may also be searched. */
  function Searchable(m: bv12): bv12 {
    (m | (if m & 0x100 != 0 then 0x40 else 0))
    | (if m & 0x20 != 0 then 0x8 else 0)
    | (if m & 0x4 != 0 then 0x1 else 0)
  }

  function Placed(props: Props, n: Node): Node {
    match props
    case Preserve => n
    case Configured(owner, mode) =>
      match n
      case File(content, _) => File(content, Attr(owner, mode))
      case Dir(_) => Dir(Attr(owner, Searchable(mode)))
  }

  /**
   * The mode `now` that a node has once `mode` is set on it.  A file gets exactly this mode; a directory gets it
   * with the search bit of user, group and others set if and only if they may read or search it.
   */
  ghost predicate ModeGiven(dir: bool, mode: bv12, now: bv12) {
    if !dir then now == mode
    else
      && now & 0xfb6 == mode & 0xfb6
      && (now & 0x40 != 0 <==> mode & 0x40 != 0 || mode & 0x100 != 0)
      && (now & 0x8 != 0 <==> mode & 0x8 != 0 || mode & 0x20 != 0)
      && (now & 0x1 != 0 <==> mode & 0x1 != 0 || mode & 0x4 != 0)
  }

  lemma SearchableMeans(mode: bv12, now: bv12)
    ensures ModeGiven(true, mode, now) <==> now == Searchable(mode)
  {
  }

  /** `m` is a copy of `n` with the properties that `props` asks for. */
  ghost predicate CopyOfNode(props: Props, n: Node, m: Node) {
    && (n.File? <==> m.File?) && (n.File? && m.File? ==> m.content == n.content)
    && match props
       case Preserve => m.attr == n.attr
       case Configured(owner, mode) => m.attr.owner == owner && ModeGiven(n.Dir?, mode, m.attr.mode)
  }

  /** Placing a node makes such a copy, and there is only one. */
  lemma PlacedMeans(props: Props, n: Node, m: Node)
    ensures CopyOfNode(props, n, m) <==> m == Placed(props, n)
  {
    if props.Configured? {
      SearchableMeans(props.mode, m.attr.mode);
    }
    hide ModeGiven, Searchable;
  }

  /** Some proper ancestor of `src + r`, not above `src`, is a file. */
  ghost predicate Covered(fs: FS, src: Path, r: Path) {
    exists k :: 0 <= k < |r| && src + r[..k] in fs && fs[src + r[..k]].File?
  }

  /** What is at `p` after the tree at `src` is laid over the tree at `dst`. */
  ghost function OverlayAt(fs: FS, props: Props, src: Path, dst: Path, p: Path): Option<Node> {
    if dst <= p then
      var r := p[|dst|..];
      if src + r in fs then Some(Placed(props, fs[src + r]))
      else if Covered(fs, src, r) then None
      else Lookup(fs, p)
    else if p <= dst && p !in fs then Some(NEW_DIR)
    else Lookup(fs, p)
  }

  /** What is at `p` after the tree at `dst` is replaced by the tree at `src`. */
  ghost function ReplaceAt(fs: FS, props: Props, src: Path, dst: Path, p: Path): Option<Node> {
    if dst <= p then
      var r := p[|dst|..];
      if src + r in fs then Some(Placed(props, fs[src + r])) else None
    else if p <= dst && p !in fs then Some(NEW_DIR)
    else Lookup(fs, p)
  }

  ghost function Targets(fs: FS, src: Path, dst: Path): set<Path> {
    fs.Keys + (set q | q in fs && src <= q :: dst + q[|src|..]) + (set k | 0 <= k <= |dst| :: dst[..k])
  }

  /** The tree at `src` laid over the tree at `dst`, with missing parents created. */
  ghost function Overlay(fs: FS, props: Props, src: Path, dst: Path): FS {
    map p | p in Targets(fs, src, dst) && OverlayAt(fs, props, src, dst, p).Some? :: OverlayAt(fs, props, src, dst, p).value
  }

  /** The tree at `dst` replaced by the tree at `src`, with missing parents created. */
  ghost function Replace(fs: FS, props: Props, src: Path, dst: Path): FS {
    map p | p in Targets(fs, src, dst) && ReplaceAt(fs, props, src, dst, p).Some? :: ReplaceAt(fs, props, src, dst, p).value
  }

  lemma TargetsSuffice(fs: FS, src: Path, dst: Path, p: Path)
    ensures dst <= p && src + p[|dst|..] in fs ==> p in Targets(fs, src, dst)
    ensures p <= dst || p in fs ==> p in Targets(fs, src, dst)
  {
    if dst <= p && src + p[|dst|..] in fs {
      var q := src + p[|dst|..];
      assert src <= q && dst + q[|src|..] == p;
    }
    if p <= dst {
      assert p == dst[..|p|];
    }
  }

  lemma OverlayLookup(fs: FS, props: Props, src: Path, dst: Path, p: Path)
    ensures Lookup(Overlay(fs, props, src, dst), p) == OverlayAt(fs, props, src, dst, p)
  {
    TargetsSuffice(fs, src, dst, p);
  }

  lemma ReplaceLookup(fs: FS, props: Props, src: Path, dst: Path, p: Path)
    ensures Lookup(Replace(fs, props, src, dst), p) == ReplaceAt(fs, props, src, dst, p)
  {
    TargetsSuffice(fs, src, dst, p);
  }

  /** File systems with the same lookups are equal. */
  lemma Extensional(a: FS, b: FS)
    requires forall p :: Lookup(a, p) == Lookup(b, p)
    ensures a == b
  {
    assert forall p :: p in a <==> Lookup(a, p).Some?;
    assert forall p :: p in b <==> Lookup(b, p).Some?;
    assert forall p :: p in a ==> Lookup(a, p) == Some(a[p]) && Lookup(b, p) == Some(b[p]);
  }

  /** The tree at `path` is gone. */
  function Removed(fs: FS, path: Path): FS {
    map p | p in fs && !(path <= p) :: fs[p]
  }

  // ---------------------------------------------------------------- the mutable file system

  class FileSystem {
    var nodes: FS

    ghost predicate Valid()
      reads this
    {
      WF(nodes)
    }

    /** `shutil.rmtree` or `os.remove`. */
    method Remove(path: Path)
      requires Valid() && path != []
      modifies this
      ensures Valid() && nodes == Removed(old(nodes), path)
    {
      nodes := Removed(nodes, path);
      assert forall p :: p in nodes && p != [] ==> Parent(p) <= p;
    }

    method MakeDir(path: Path)
      requires Valid() && path != [] && path !in nodes && IsDir(nodes, Parent(path))
      modifies this
      ensures Valid() && nodes == old(nodes)[path := NEW_DIR]
    {
      nodes := nodes[path := NEW_DIR];
    }

    method WriteFile(path: Path, content: string, attr: Attr)
      requires Valid() && path != [] && path !in nodes && IsDir(nodes, Parent(path))
      modifies this
      ensures Valid() && nodes == old(nodes)[path := File(content, attr)]
    {
      nodes := nodes[path := File(content, attr)];
    }

    /** `os.chown` and `os.chmod`. */
    method SetAttr(path: Path, attr: Attr)
      requires Valid() && path in nodes
      modifies this
      ensures Valid() && nodes == old(nodes)[path := old(nodes[path]).(attr := attr)]
    {
      nodes := nodes[path := nodes[path].(attr := attr)];
    }

    /** `os.listdir`: each name once, in no particular order. */
    method ListDir(path: Path) returns (names: seq<string>)
      ensures forall c :: c in names <==> path + [c] in nodes
      ensures forall i, j :: 0 <= i < j < |names| ==> names[i] != names[j]
    {
      var left := set p | p in nodes && |p| == |path| + 1 && path <= p :: p[|path|];
      assert forall c :: c in left <==> path + [c] in nodes by {
        forall c | path + [c] in nodes ensures c in left {
          assert path <= path + [c] && (path + [c])[|path|] == c;
        }
        forall c | c in left ensures path + [c] in nodes {
          var p :| p in nodes && |p| == |path| + 1 && path <= p && p[|path|] == c;
          assert p == path + [c];
        }
      }
      ghost var all := left;
      names := [];
      while left != {}
        invariant forall c :: c in all <==> c in names || c in left
        invariant forall c <- names :: c !in left
        invariant forall i, j :: 0 <= i < j < |names| ==> names[i] != names[j]
        decreases |left|
      {
        var c :| c in left;
        left := left - {c};
        names := names + [c];
      }
    }
  }
}
