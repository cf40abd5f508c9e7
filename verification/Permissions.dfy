/** `handle_permissions`: owners and modes set on configured paths after everything is copied. */
module Permissions {
  import opened Statuses
  import opened FileSystems
  import opened Paths
  import opened Copying

  /** An entry of `permissions` without exclusions. */
  datatype Permission = Permission(path: string, owner: string, perm: Option<bv12>, recurse: bool)

  /** The node with the owner and, if one is given, the mode of the entry. */
  function Granted(q: Permission, n: Node): Node {
    var mode := if q.perm.None? then n.attr.mode else if n.Dir? then Searchable(q.perm.value) else q.perm.value;
    n.(attr := Attr(q.owner, mode))
  }

  /** The entry concerns the node at `p`. */
  predicate Reaches(fs: FS, q: Permission, p: Path) {
    var a := Components(q.path);
    p == a || (q.recurse && IsDir(fs, a) && a <= p)
  }

  function Permitted(fs: FS, q: Permission): FS {
    if !Exists(fs, q.path) then fs
    else map p | p in fs :: if Reaches(fs, q, p) then Granted(q, fs[p]) else fs[p]
  }

  function AllPermitted(fs: FS, qs: seq<Permission>, n: nat): FS
    requires n <= |qs|
  {
    if n == 0 then fs else Permitted(AllPermitted(fs, qs, n - 1), qs[n - 1])
  }

  /** Same nodes with the same contents. */
  ghost predicate SameShape(fs: FS, now: FS) {
    && fs.Keys == now.Keys
    && forall p :: p in fs ==> fs[p].Dir? == now[p].Dir? && (fs[p].File? ==> fs[p].content == now[p].content)
  }

  /**
   * What one entry promises: if its path exists, that node, and with `recurse` every node below it,
   * gets the owner, and the mode if one is given; nothing else changes.
   */
  ghost predicate PermissionMeans(before: FS, now: FS, q: Permission) {
    var a := Components(q.path);
    && now.Keys == before.Keys
    && forall p :: p in before ==>
         if q.path != "" && a in before && (p == a || (q.recurse && before[a].Dir? && a <= p)) then
           && (before[p].File? <==> now[p].File?) && (before[p].File? ==> now[p].File? && now[p].content == before[p].content)
           && now[p].attr.owner == q.owner
           && (q.perm.None? ==> now[p].attr.mode == before[p].attr.mode)
           && (q.perm.Some? ==> ModeGiven(before[p].Dir?, q.perm.value, now[p].attr.mode))
         else now[p] == before[p]
  }

  lemma GrantedMeans(q: Permission, n: Node)
    ensures var m := Granted(q, n);
      && (n.File? <==> m.File?) && (n.File? ==> m.File? && m.content == n.content) && m.attr.owner == q.owner
      && (q.perm.None? ==> m.attr.mode == n.attr.mode)
      && (q.perm.Some? ==> ModeGiven(n.Dir?, q.perm.value, m.attr.mode))
  {
    hide Searchable;
    if q.perm.Some? && n.Dir? {
      SearchableMeans(q.perm.value, Granted(q, n).attr.mode);
    }
  }

  lemma PermittedMeans(fs: FS, q: Permission)
    ensures PermissionMeans(fs, Permitted(fs, q), q)
  {
    hide Components, Granted, ModeGiven;
    forall p | p in fs {
      GrantedMeans(q, fs[p]);
    }
  }

  /** Permissions change attributes only, and those of the nodes that they reach only. */
  lemma PermittedShape(fs: FS, q: Permission)
    ensures SameShape(fs, Permitted(fs, q)) && (WF(fs) ==> WF(Permitted(fs, q)))
    ensures forall p :: p in fs && !Reaches(fs, q, p) ==> Permitted(fs, q)[p] == fs[p]
  {
    hide Components, Reaches;
  }

  /** Setting the same permission twice is setting it once. */
  lemma PermittedIdempotent(fs: FS, q: Permission)
    ensures Permitted(Permitted(fs, q), q) == Permitted(fs, q)
  {
    hide Components, Searchable;
    PermittedShape(fs, q);
    var once := Permitted(fs, q);
    if Exists(fs, q.path) {
      assert IsDir(once, Components(q.path)) <==> IsDir(fs, Components(q.path));
      assert forall p :: Reaches(once, q, p) <==> Reaches(fs, q, p);
    }
  }

  lemma {:induction false} AllPermittedShape(fs: FS, qs: seq<Permission>, n: nat)
    requires n <= |qs|
    ensures SameShape(fs, AllPermitted(fs, qs, n)) && (WF(fs) ==> WF(AllPermitted(fs, qs, n)))
  {
    hide Permitted, WF;
    if n > 0 {
      AllPermittedShape(fs, qs, n - 1);
      PermittedShape(AllPermitted(fs, qs, n - 1), qs[n - 1]);
    }
  }

  /** The entries are applied in order, each to what the ones before it left. */
  lemma AllPermittedMeans(fs: FS, qs: seq<Permission>, n: nat)
    requires n < |qs|
    ensures AllPermitted(fs, qs, 0) == fs
    ensures PermissionMeans(AllPermitted(fs, qs, n), AllPermitted(fs, qs, n + 1), qs[n])
  {
    hide Permitted, PermissionMeans;
    PermittedMeans(AllPermitted(fs, qs, n), qs[n]);
  }

  /** `set_perms` on a path that exists. */
  method SetPerms(fs: FileSystem, path: Path, q: Permission)
    requires fs.Valid() && path in fs.nodes
    modifies fs
    ensures fs.Valid() && fs.nodes == old(fs.nodes)[path := Granted(q, old(fs.nodes[path]))]
  {
    var node := fs.nodes[path];
    match q.perm
    case None => fs.SetAttr(path, Attr(q.owner, node.attr.mode));
    case Some(perm) => fs.SetAttr(path, Attr(q.owner, if node.Dir? then Searchable(perm) else perm));
  }

  /** The paths that an entry reaches, if its own path exists. */
  function Reached(fs: FS, q: Permission): set<Path> { set p | p in fs && Reaches(fs, q, p) }

  /** The entry has been applied to all paths that it reaches except those in `left`. */
  ghost predicate Applied(fs: FS, now: FS, q: Permission, left: set<Path>) {
    && fs.Keys == now.Keys && left <= Reached(fs, q)
    && forall p :: p in fs ==> now[p] == if p in Reached(fs, q) && p !in left then Granted(q, fs[p]) else fs[p]
  }

  lemma AppliedStart(fs: FS, q: Permission)
    ensures Applied(fs, fs, q, Reached(fs, q))
  {
    hide Granted, Reaches;
  }

  lemma AppliedNext(fs: FS, now: FS, q: Permission, left: set<Path>, p: Path)
    requires Applied(fs, now, q, left) && p in left
    ensures p in now && Applied(fs, now[p := Granted(q, now[p])], q, left - {p})
  {
    hide Granted, Reaches;
  }

  lemma AppliedAll(fs: FS, now: FS, q: Permission)
    requires Applied(fs, now, q, {}) && Exists(fs, q.path)
    ensures now == Permitted(fs, q)
  {
    hide Components, Granted, Reaches;
  }

  lemma ReachedFacts(fs: FS, q: Permission)
    ensures Exists(fs, q.path) ==> Components(q.path) in Reached(fs, q)
    ensures !Exists(fs, q.path) ==> Permitted(fs, q) == fs
    ensures !(q.recurse && IsDir(fs, Components(q.path))) ==> Reached(fs, q) - {Components(q.path)} == {}
  {
    hide Components;
  }

  /** One entry: the path itself and, if asked for, everything below it, in no particular order. */
  method HandlePermission(fs: FileSystem, q: Permission)
    requires fs.Valid()
    modifies fs
    ensures fs.Valid() && fs.nodes == Permitted(old(fs.nodes), q)
    ensures PermissionMeans(old(fs.nodes), fs.nodes, q)
  {
    hide *;
    ghost var before := fs.nodes;
    PermittedMeans(before, q);
    ReachedFacts(before, q);
    if !Exists(fs.nodes, q.path) {
      return;
    }
    var path := Components(q.path);
    var left := if q.recurse && IsDir(fs.nodes, path) then Reached(fs.nodes, q) - {path} else {};
    assert left == Reached(before, q) - {path};
    AppliedStart(before, q);
    AppliedNext(before, before, q, Reached(before, q), path);
    SetPerms(fs, path, q);
    while left != {}
      invariant fs.Valid() && Applied(before, fs.nodes, q, left)
      decreases |left|
    {
      var p :| p in left;
      AppliedNext(before, fs.nodes, q, left, p);
      left := left - {p};
      SetPerms(fs, p, q);
    }
    AppliedAll(before, fs.nodes, q);
  }

  /** `handle_permissions`. */
  method HandlePermissions(fs: FileSystem, qs: seq<Permission>)
    requires fs.Valid()
    modifies fs
    ensures fs.Valid() && fs.nodes == AllPermitted(old(fs.nodes), qs, |qs|)
  {
    hide Permitted;
    ghost var before := fs.nodes;
    for n := 0 to |qs|
      invariant fs.Valid() && fs.nodes == AllPermitted(before, qs, n)
    {
      HandlePermission(fs, qs[n]);
    }
  }
}
