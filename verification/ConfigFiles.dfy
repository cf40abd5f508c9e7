/** `ConfigFile`: copying a configuration file or tree to its destination. */
module ConfigFiles {
  import opened Statuses
  import opened FileSystems
  import opened Merging
  import opened Paths
  import opened Copying
  import opened Overlays

  class ConfigFile {
    const data: Data

    constructor (data: Data)
      ensures this.data == data
    {
      this.data := data;
    }

    /** `_delete_path`. */
    method DeletePath(fs: FileSystem, path: Path)
      requires fs.Valid() && path != []
      modifies fs
      ensures fs.Valid() && fs.nodes == Removed(old(fs.nodes), path)
    {
      if path !in fs.nodes {
        AbsentTree(fs.nodes, path);
        return;
      }
      fs.Remove(path);
    }

    /** `_set_properties` of a copied node. */
    method SetProperties(fs: FileSystem, source: Path, dest: Path)
      requires fs.Valid() && source in fs.nodes && dest in fs.nodes && fs.nodes[dest].Dir? == fs.nodes[source].Dir?
      requires fs.nodes[source].File? ==> fs.nodes[dest].content == fs.nodes[source].content
      modifies fs
      ensures fs.Valid() && fs.nodes == old(fs.nodes)[dest := Placed(data.props, old(fs.nodes[source]))]
    {
      match data.props
      case Preserve => fs.SetAttr(dest, fs.nodes[source].attr);
      case Configured(owner, mode) =>
        fs.SetAttr(dest, Attr(owner, if fs.nodes[dest].Dir? then Searchable(mode) else mode));
    }

    /** `_copy_file`. */
    method CopyFile(fs: FileSystem, source: Path, dest: Path)
      requires fs.Valid() && Apart(source, dest) && dest != [] && IsDir(fs.nodes, Parent(dest))
      requires source in fs.nodes && fs.nodes[source].File?
      modifies fs
      ensures fs.Valid() && fs.nodes == Overlay(old(fs.nodes), data.props, source, dest)
    {
      FileIsOverlay(fs.nodes, data.props, source, dest);
      DeletePath(fs, dest);
      assert !(dest <= Parent(dest));
      fs.WriteFile(dest, fs.nodes[source].content, fs.nodes[source].attr);
      SetProperties(fs, source, dest);
    }

    /** The part of `_merge_directories` before its loop. */
    method PrepareDirectory(fs: FileSystem, source: Path, dest: Path)
      requires fs.Valid() && Apart(source, dest) && dest != [] && IsDir(fs.nodes, Parent(dest))
      requires IsDir(fs.nodes, source)
      modifies fs
      ensures fs.Valid() && Merged(old(fs.nodes), fs.nodes, data.props, source, dest, {})
    {
      hide *;
      Valids(fs);
      ghost var before := fs.nodes;
      DirectoryCases(before, data.props, source, dest);
      if dest in fs.nodes && !IsDir(fs.nodes, dest) {
        DeletePath(fs, dest);
      }
      if !IsDir(fs.nodes, dest) {
        fs.MakeDir(dest);
      }
      SetProperties(fs, source, dest);
    }

    /** `_merge_directories`: the recursion computes the overlay. */
    method MergeDirectories(fs: FileSystem, source: Path, dest: Path)
      requires fs.Valid() && Apart(source, dest) && dest != [] && IsDir(fs.nodes, Parent(dest))
      requires source in fs.nodes
      modifies fs
      ensures fs.Valid() && fs.nodes == Overlay(old(fs.nodes), data.props, source, dest)
      decreases |TreeAt(fs.nodes, source)|
    {
      hide *;
      Valids(fs);
      ghost var before := fs.nodes;
      if !IsDir(fs.nodes, source) {
        FileOrDir(fs.nodes, source);
        CopyFile(fs, source, dest);
        return;
      }
      FileOrDir(fs.nodes, source);
      PrepareDirectory(fs, source, dest);
      var names := fs.ListDir(source);
      ChildrenKept(before, fs.nodes, data.props, source, dest, {});
      ghost var done: set<string> := {};
      for i := 0 to |names|
        invariant fs.Valid() && Merged(before, fs.nodes, data.props, source, dest, done)
        invariant done == set j | 0 <= j < i :: names[j]
      {
        ghost var c := names[i];
        ChildrenKept(before, fs.nodes, data.props, source, dest, done);
        NextChild(before, fs.nodes, data.props, source, dest, done, c);
        ghost var now := fs.nodes;
        Valids(fs);
        MergeDirectories(fs, source + [names[i]], dest + [names[i]]);
        MergedNext(before, now, fs.nodes, data.props, source, dest, done, c);
        done := done + {c};
      }
      MergedEnd(before, fs.nodes, data.props, source, dest, done);
    }

    /** `_create_parent_dirs`, failing where the library call does: without a parent to name, or below a file. */
    method CreateParentDirs(fs: FileSystem, dest: string) returns (ok: bool)
      requires fs.Valid()
      modifies fs
      ensures fs.Valid() && (ok <==> HasDirname(dest) && !FileAbove(old(fs.nodes), Components(dest)))
      ensures fs.nodes == if ok then WithParents(old(fs.nodes), Components(dest)) else old(fs.nodes)
    {
      if !HasDirname(dest) {
        return false;
      }
      var path := Components(dest);
      ghost var before := fs.nodes;
      for k := 0 to |path|
        invariant fs.Valid() && fs.nodes == WithParents(before, path[..k]) && !FileAbove(before, path[..k])
        invariant k > 0 ==> IsDir(fs.nodes, path[..k - 1])
      {
        ParentsNext(before, path, k);
        if path[..k] !in fs.nodes {
          assert Parent(path[..k]) == path[..k - 1];
          fs.MakeDir(path[..k]);
        } else if !IsDir(fs.nodes, path[..k]) {
          return false;
        }
      }
      assert path[..|path|] == path;
      return true;
    }

    /** `copy`. */
    method Copy(fs: FileSystem) returns (error: Option<Error>)
      requires fs.Valid() && Copyable(data)
      modifies fs
      ensures fs.Valid() && (fs.nodes, error) == Copied(old(fs.nodes), data)
      ensures CopyMeans(old(fs.nodes), fs.nodes, data, error)
    {
      hide *;
      ghost var before := fs.nodes;
      Valids(fs);
      CopyCases(before, data);
      CopiedMeans(before, data);
      var source := data.From();
      if !Exists(fs.nodes, data.source) {
        return if data.optional then None else Some(MissingRequiredSource);
      }
      var dest := ResolvedByJoin(data.dest, data.source);
      if !data.merge && data.dest != "" {
        DeletePath(fs, Components(dest));
      }
      ghost var mid := fs.nodes;
      var ok := CreateParentDirs(fs, dest);
      if !ok {
        return Some(OSError);
      }
      ReadyToMerge(before, mid, data);
      MergeDirectories(fs, source, Components(dest));
      return None;
    }
  }

  /** One more directory on the way down to `path`. */
  lemma ParentsNext(fs: FS, path: Path, k: nat)
    requires WF(fs) && k < |path| && !FileAbove(fs, path[..k])
    ensures var now := WithParents(fs, path[..k]);
      && (path[..k] !in now ==> k > 0 && WithParents(fs, path[..k + 1]) == now[path[..k] := NEW_DIR] && !FileAbove(fs, path[..k + 1]))
      && (IsDir(now, path[..k]) ==> WithParents(fs, path[..k + 1]) == now && !FileAbove(fs, path[..k + 1]))
      && (path[..k] in now && !IsDir(now, path[..k]) ==> FileAbove(fs, path) && now == fs)
  {
    ParentsSnoc(fs, path, k);
    FileAboveSnoc(fs, path, k);
    WithParentsAt(fs, path[..k], path[..k]);
    if path[..k] in fs {
      ParentsExist(fs, path[..k]);
    }
    hide *;
    assert k == 0 ==> path[..k] == [];
  }

  lemma ParentsSnoc(fs: FS, path: Path, k: nat)
    requires k < |path|
    ensures var now := WithParents(fs, path[..k]);
      WithParents(fs, path[..k + 1]) == if path[..k] !in now then now[path[..k] := NEW_DIR] else now
  {
    var now, next := WithParents(fs, path[..k]), WithParents(fs, path[..k + 1]);
    forall p ensures Lookup(next, p) == if p == path[..k] && p !in now then Some(NEW_DIR) else Lookup(now, p) {
      WithParentsAt(fs, path[..k], p);
      WithParentsAt(fs, path[..k + 1], p);
      assert path[..k] <= path[..k + 1];
      if p <= path[..k + 1] && p != path[..k + 1] {
        assert p == path[..|p|];
      }
    }
    Extensional(next, if path[..k] !in now then now[path[..k] := NEW_DIR] else now);
  }

  lemma FileAboveSnoc(fs: FS, path: Path, k: nat)
    requires k < |path|
    ensures FileAbove(fs, path[..k + 1]) <==> FileAbove(fs, path[..k]) || (path[..k] in fs && fs[path[..k]].File?)
    ensures path[..k] in fs && fs[path[..k]].File? ==> FileAbove(fs, path)
  {
    forall i | 0 <= i <= k ensures path[..k + 1][..i] == path[..i] && path[..k][..i] == path[..i] {
    }
    if FileAbove(fs, path[..k]) {
      var i :| 0 <= i < k && path[..k][..i] in fs && fs[path[..k][..i]].File?;
      assert path[..k + 1][..i] in fs;
    }
    if path[..k] in fs && fs[path[..k]].File? {
      assert path[..k + 1][..k] in fs;
    }
    if FileAbove(fs, path[..k + 1]) {
      var i :| 0 <= i < k + 1 && path[..k + 1][..i] in fs && fs[path[..k + 1][..i]].File?;
      assert path[..k][..i] in fs;
    }
  }

  lemma ParentsExist(fs: FS, path: Path)
    requires WF(fs) && path in fs
    ensures WithParents(fs, path) == fs
  {
    forall p ensures Lookup(WithParents(fs, path), p) == Lookup(fs, p) {
      WithParentsAt(fs, path, p);
      if p <= path && p != path {
        assert p == path[..|p|];
        AncestorIsDir(fs, path, |p|);
      }
    }
    Extensional(WithParents(fs, path), fs);
  }

  lemma CopyCases(fs: FS, d: Data)
    requires WF(fs) && Copyable(d)
    ensures !Exists(fs, d.source) ==> Copied(fs, d) == (fs, if d.optional then None else Some(MissingRequiredSource))
    ensures Exists(fs, d.source) && (!HasDirname(d.dest) || FileAbove(Cleared(fs, d), d.To())) ==>
      Copied(fs, d) == (Cleared(fs, d), Some(OSError))
    ensures Exists(fs, d.source) && HasDirname(d.dest) && !FileAbove(Cleared(fs, d), d.To()) ==>
      Copied(fs, d) == (if d.merge then Overlay(fs, d.props, d.From(), d.To()) else Replace(fs, d.props, d.From(), d.To()), None)
    ensures Cleared(fs, d) == if !d.merge && d.dest != "" then Removed(fs, d.To()) else fs
    ensures Exists(fs, d.source) ==> d.From() in fs
    ensures d.dest != "" ==> d.To() != [] && Apart(d.From(), d.To())
    ensures HasDirname(d.dest) ==> d.dest != ""
    ensures HasDirname(ResolvedByJoin(d.dest, d.source)) <==> HasDirname(d.dest)
    ensures Components(ResolvedByJoin(d.dest, d.source)) == d.To()
  {
    ResolvedHasDirname(d.dest, d.source);
    if d.dest != "" {
      FileAboveRemoved(fs, d.To());
      if FileAbove(fs, d.To()) {
        NothingUnderFile(fs, d.To());
      }
    }
  }

  /** After deleting, if asked to, and creating the parents, merging gives the result of the copy. */
  lemma ReadyToMerge(fs: FS, mid: FS, d: Data)
    requires WF(fs) && WF(mid) && HasDirname(d.dest) && d.dest != "" && Apart(d.From(), d.To()) && d.From() in fs && !FileAbove(mid, d.To())
    requires mid == Cleared(fs, d)
    ensures var now := WithParents(mid, d.To());
      && d.To() != [] && IsDir(now, Parent(d.To())) && d.From() in now
      && Overlay(now, d.props, d.From(), d.To())
         == (if d.merge then Overlay(fs, d.props, d.From(), d.To()) else Replace(fs, d.props, d.From(), d.To()))
  {
    hide Overlay, Replace;
    WithParentsWF(mid, d.To());
    OverlayAfterParents(mid, d.props, d.From(), d.To());
    OverlayAfterDelete(fs, d.props, d.From(), d.To());
    WithParentsAt(mid, d.To(), d.From());
  }

  /** The two ways to a directory at the destination: replacing what is there, and keeping the directory. */
  lemma DirectoryCases(fs: FS, props: Props, source: Path, dest: Path)
    requires WF(fs) && Apart(source, dest) && dest != [] && IsDir(fs, Parent(dest)) && IsDir(fs, source)
    ensures source in fs && (dest !in fs ==> Removed(fs, dest) == fs)
    ensures var cleared := Removed(fs, dest);
      && dest !in cleared && !IsDir(cleared, dest) && IsDir(cleared, Parent(dest)) && source in cleared
      && cleared[source] == fs[source] && fs[source].Dir? && NEW_DIR.Dir?
    ensures dest !in fs ==> !IsDir(fs, dest)
    ensures IsDir(fs, dest) ==> dest in fs && fs[dest].Dir?
    ensures var made := Removed(fs, dest)[dest := NEW_DIR];
      && source in made && made[source] == fs[source] && IsDir(made, dest)
      && made[dest := Placed(props, fs[source])] == Removed(fs, dest)[dest := Placed(props, fs[source])]
    ensures !IsDir(fs, dest) ==> Merged(fs, Removed(fs, dest)[dest := Placed(props, fs[source])], props, source, dest, {})
    ensures IsDir(fs, dest) ==> Merged(fs, fs[dest := Placed(props, fs[source])], props, source, dest, {})
  {
    if dest !in fs {
      AbsentTree(fs, dest);
    }
    assert !(dest <= Parent(dest));
    if IsDir(fs, dest) {
      MergedStartDir(fs, fs[dest := Placed(props, fs[source])], props, source, dest);
    } else {
      MergedStart(fs, Removed(fs, dest)[dest := Placed(props, fs[source])], props, source, dest);
    }
    hide Merged, WF;
  }

  lemma Valids(fs: FileSystem)
    requires fs.Valid()
    ensures WF(fs.nodes)
  {
  }

  lemma FileOrDir(fs: FS, path: Path)
    requires path in fs
    ensures fs[path].File? <==> !IsDir(fs, path)
  {
  }

  lemma AbsentTree(fs: FS, path: Path)
    requires WF(fs) && path !in fs
    ensures Removed(fs, path) == fs
  {
    forall p | p in fs ensures !(path <= p) {
      if path <= p { NothingBelow(fs, path, p); }
    }
  }
}
