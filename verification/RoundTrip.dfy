/** What restarts do to the tracked paths: the first brings the originals back, the second overwrites the backups. */
module RoundTrip {
  import opened Statuses
  import opened FileSystems
  import opened Paths
  import opened Copying
  import opened Overlays
  import opened ConfigFiles
  import opened Defaults
  import opened Tracking

  function Home(): Path { Components(KOLLA_DEFAULTS) }

  function Dst(d: Data): string { ResolvedBySplit(d.dest, d.source) }

  function At(key: string): Path { Components(key) }

  predicate Absolute(path: string) { path != "" && path[0] == '/' }

  /** Destinations are absolute, not inside each other, and away from the saved defaults. */
  ghost predicate Separate(files: seq<Data>) {
    && (forall i :: 0 <= i < |files| ==> Absolute(Dst(files[i])) && Apart(At(Dst(files[i])), Home()))
    && (forall i, j :: 0 <= i < |files| && 0 <= j < |files| && Dst(files[i]) != Dst(files[j]) ==>
          Apart(At(Dst(files[i])), At(Dst(files[j]))))
  }

  /** The same for the keys of a state. */
  ghost predicate Spread(state: seq<Tracked>) {
    && (forall i :: 0 <= i < |state| ==> Absolute(state[i].key) && Apart(At(state[i].key), Home()))
    && (forall i, j :: 0 <= i < |state| && 0 <= j < |state| && i != j ==> Apart(At(state[i].key), At(state[j].key)))
  }

  /** The tree at `a` in one file system is the tree at `b` in another. */
  ghost predicate SameTree(f: FS, a: Path, g: FS, b: Path) {
    forall r: Path :: Lookup(f, a + r) == Lookup(g, b + r)
  }

  lemma SameTreeTrans(f: FS, a: Path, g: FS, b: Path, h: FS, c: Path)
    requires SameTree(f, a, g, b) && SameTree(g, b, h, c)
    ensures SameTree(f, a, h, c)
  {
    forall r: Path ensures Lookup(f, a + r) == Lookup(h, c + r) {
      assert Lookup(f, a + r) == Lookup(g, b + r);
    }
  }

  // ---------------------------------------------------------------- copying between a path and its backup

  lemma BackupIsBelowHome(key: string)
    requires Absolute(key)
    ensures At(BackupPath(key)) == Home() + At(key)
  {
    ComponentsConcat(KOLLA_DEFAULTS, key);
  }

  lemma NoBase(s: string)
    requires EndsWithSlash(s)
    ensures Basename(s) == "" && Join(s, "") == s
  {
  }

  /** A copy to a path that ends like its source goes to the path it names. */
  lemma CopyTo(a: string, b: string)
    requires EndsWithSlash(b) ==> EndsWithSlash(a)
    ensures CopyOf(a, b).To() == At(b) && CopyOf(a, b).From() == At(a)
  {
    hide Components;
    if EndsWithSlash(b) {
      NoBase(a);
      NoBase(b);
    }
  }

  lemma SlashesAgree(key: string)
    requires Absolute(key)
    ensures EndsWithSlash(key) <==> EndsWithSlash(BackupPath(key))
  {
  }

  /** A copy between a key and its backup goes to the path it names. */
  lemma CopyPaths(key: string)
    requires Absolute(key)
    ensures CopyOf(key, BackupPath(key)).To() == Home() + At(key) && CopyOf(BackupPath(key), key).To() == At(key)
    ensures CopyOf(key, BackupPath(key)).From() == At(key) && CopyOf(BackupPath(key), key).From() == Home() + At(key)
  {
    hide *;
    BackupIsBelowHome(key);
    SlashesAgree(key);
    CopyTo(key, BackupPath(key));
    CopyTo(BackupPath(key), key);
  }

  /** The effect of a preserving copy from the tree at `src` to the tree at `dst`. */
  lemma CopyEffect(fs: FS, d: Data)
    requires d.props == Preserve && !d.merge && !d.optional && HasDirname(d.dest) && Exists(fs, d.source)
    requires Apart(d.From(), d.To()) && !FileAbove(fs, d.To())
    ensures var now := Copied(fs, d).0;
      && Copied(fs, d).1 == None
      && SameTree(now, d.To(), fs, d.From())
      && (forall q: Path :: !(d.To() <= q) && (q in fs || !(q <= d.To())) ==> Lookup(now, q) == Lookup(fs, q))
      && (forall q: Path :: !(d.To() <= q) && q <= d.To() && q !in fs ==> Lookup(now, q) == Some(NEW_DIR))
  {
    hide Components, ResolvedByJoin;
    var now := Copied(fs, d).0;
    forall q: Path ensures Lookup(now, q) == ReplaceAt(fs, Preserve, d.From(), d.To(), q) {
      ReplaceLookup(fs, Preserve, d.From(), d.To(), q);
    }
    forall r: Path ensures Lookup(now, d.To() + r) == Lookup(fs, d.From() + r) {
      assert (d.To() + r)[|d.To()|..] == r;
      assert Lookup(now, d.To() + r) == ReplaceAt(fs, Preserve, d.From(), d.To(), d.To() + r);
    }
  }

  lemma PrefixShift(h: Path, a: Path, b: Path)
    ensures h + a <= h + b ==> a <= b
  {
    assert (h + a)[|h|..] == a && (h + b)[|h|..] == b;
    assert h + a <= h + b ==> (h + b)[..|h + a|] == h + a;
    assert |a| <= |b| ==> (h + b)[..|h + a|] == h + b[..|a|];
    assert |a| <= |b| ==> (h + b[..|a|])[|h|..] == b[..|a|];
  }

  lemma ApartShift(h: Path, a: Path, b: Path)
    requires Apart(a, b)
    ensures Apart(h + a, h + b)
  {
    PrefixShift(h, a, b);
    PrefixShift(h, b, a);
  }

  predicate IsPathOf(path: string, key: string) { path == key || path == BackupPath(key) }

  /** The paths of different entries, and the two paths of one entry, are apart. */
  lemma CrossApart(x: string, k: string, y: string, l: string)
    requires Absolute(k) && Absolute(l) && Apart(At(k), Home()) && Apart(At(l), Home())
    requires IsPathOf(x, k) && IsPathOf(y, l) && (Apart(At(k), At(l)) || (k == l && x != y))
    ensures Apart(At(x), At(y))
  {
    hide Components, Apart;
    BackupIsBelowHome(k);
    BackupIsBelowHome(l);
    ApartSym(At(k), Home());
    ApartSym(At(l), Home());
    ApartFrom(Home(), At(k), At(l));
    ApartFrom(Home(), At(l), At(k));
    if Apart(At(k), At(l)) {
      ApartShift(Home(), At(k), At(l));
    }
  }

  lemma ApartSym(a: Path, b: Path)
    requires Apart(a, b)
    ensures Apart(b, a)
  {
  }

  lemma ApartFrom(a: Path, b: Path, r: Path)
    requires Apart(a, b)
    ensures Apart(a + r, b) && Apart(b, a + r)
  {
    ApartBelow(a, b, r);
  }

  // ---------------------------------------------------------------- what one entry of a restart changes

  /** Only the tree at `t` changes, apart from created parents. */
  ghost predicate OnlyTree(fs: FS, now: FS, t: Path) {
    forall q: Path :: !(t <= q) ==>
      Lookup(now, q) == Lookup(fs, q) || (q <= t && q !in fs && Lookup(now, q) == Some(NEW_DIR))
  }

  lemma TreeKept(fs: FS, now: FS, t: Path, a: Path)
    requires OnlyTree(fs, now, t) && (Apart(t, a) || t == a)
    ensures Apart(t, a) ==> SameTree(now, a, fs, a)
    ensures FileAbove(now, a) <==> FileAbove(fs, a)
  {
    forall r: Path | Apart(t, a) ensures Lookup(now, a + r) == Lookup(fs, a + r) {
      ApartBelow(a, t, r);
    }
    if FileAbove(now, a) {
      var k :| 0 <= k < |a| && a[..k] in now && now[a[..k]].File?;
      assert a[..k] <= a;
      assert !(t <= a[..k]);
      assert Lookup(now, a[..k]) == Some(now[a[..k]]);
    }
    if FileAbove(fs, a) {
      var k :| 0 <= k < |a| && a[..k] in fs && fs[a[..k]].File?;
      assert a[..k] <= a;
      assert !(t <= a[..k]);
      assert Lookup(now, a[..k]) == Lookup(fs, a[..k]);
    }
  }

  /** An entry as starts leave it: its paths are its key and the backup path, in either order. */
  predicate Paired(e: Tracked) {
    e.dest.Some? ==> (e.source == e.key && e.dest.value == BackupPath(e.key)) || (e.source == BackupPath(e.key) && e.dest.value == e.key)
  }

  /** Restoring one entry: the tree at its source becomes the one at its destination, or the key is removed. */
  lemma RestoredEntry(fs: FS, e: Tracked)
    requires WF(fs) && Paired(e) && Absolute(e.key) && Apart(At(e.key), Home())
    requires e.dest.Some? ==> At(e.dest.value) in fs && !FileAbove(fs, At(e.source))
    ensures var now := Restored(fs, e).0;
      && Restored(fs, e).1 == None && WF(now)
      && (e.dest.Some? ==> SameTree(now, At(e.source), fs, At(e.dest.value)) && OnlyTree(fs, now, At(e.source)))
      && (e.dest.None? ==> At(e.key) !in now && OnlyTree(fs, now, At(e.key)))
  {
    hide *;
    RestoredCases(fs, e);
    if e.dest.Some? {
      CopiedEntry(fs, e);
    } else {
      RemovedEntry(fs, e);
    }
  }

  lemma CopiedEntry(fs: FS, e: Tracked)
    requires WF(fs) && Paired(e) && Absolute(e.key) && Apart(At(e.key), Home()) && e.dest.Some?
    requires At(e.dest.value) in fs && !FileAbove(fs, At(e.source))
    ensures var r := Copied(fs, CopyOf(e.dest.value, e.source));
      && r.1 == None && WF(r.0) && SameTree(r.0, At(e.source), fs, At(e.dest.value)) && OnlyTree(fs, r.0, At(e.source))
  {
    hide Components, KOLLA_DEFAULTS, Copied, WF, SameTree, FileAbove;
    var d := CopyOf(e.dest.value, e.source);
    CopyPaths(e.key);
    CrossApart(e.dest.value, e.key, e.source, e.key);
    BackupIsBelowHome(e.key);
    CopyEffect(fs, d);
    CopiedWF(fs, d);
  }

  lemma RemovedEntry(fs: FS, e: Tracked)
    requires WF(fs) && Absolute(e.key) && Apart(At(e.key), Home())
    ensures var now := if Exists(fs, e.key) then Removed(fs, Components(e.key)) else fs;
      && WF(now) && At(e.key) !in now && OnlyTree(fs, now, At(e.key))
  {
    hide Components, KOLLA_DEFAULTS;
    RemovedWF(fs, At(e.key));
  }

  // ---------------------------------------------------------------- a whole restart

  ghost predicate AllPaired(state: seq<Tracked>) {
    forall i :: 0 <= i < |state| ==> Paired(state[i])
  }

  /** The copy that a restart on `fs` makes for the entry has something to copy, and room for it. */
  ghost predicate Possible(fs: FS, e: Tracked) {
    e.dest.Some? ==> At(e.dest.value) in fs && !FileAbove(fs, At(e.source))
  }

  /** What a restart on `fs` makes of an entry: its source tree is a copy of its destination tree, or its key is gone. */
  ghost predicate Done(fs: FS, now: FS, e: Tracked) {
    if e.dest.None? then At(e.key) !in now
    else SameTree(now, At(e.source), fs, At(e.dest.value)) && SameTree(now, At(e.dest.value), fs, At(e.dest.value))
  }

  ghost predicate Pending(fs: FS, now: FS, e: Tracked) {
    e.dest.Some? ==>
      && SameTree(now, At(e.dest.value), fs, At(e.dest.value)) && SameTree(now, At(e.source), fs, At(e.source))
      && (FileAbove(now, At(e.source)) <==> FileAbove(fs, At(e.source)))
  }

  /** The tree that the restart changes for an entry. */
  function Target(e: Tracked): string { if e.dest.None? then e.key else e.source }

  lemma TargetsApart(state: seq<Tracked>, i: nat, j: nat)
    requires Spread(state) && i < |state| && j < |state| && i != j && Paired(state[i]) && Paired(state[j])
    ensures Apart(At(Target(state[i])), At(Target(state[j])))
    ensures state[j].dest.Some? ==>
      Apart(At(Target(state[i])), At(state[j].dest.value)) && Apart(At(Target(state[i])), At(state[j].source))
  {
    hide Components, Apart, KOLLA_DEFAULTS;
    var d, e := state[i], state[j];
    CrossApart(Target(d), d.key, Target(e), e.key);
    if e.dest.Some? {
      CrossApart(Target(d), d.key, e.dest.value, e.key);
      CrossApart(Target(d), d.key, e.source, e.key);
    }
  }

  /** Another entry's copy or removal does not matter to an entry. */
  lemma OtherEntry(fs: FS, now: FS, next: FS, state: seq<Tracked>, i: nat, j: nat)
    requires Spread(state) && i < |state| && j < |state| && i != j && Paired(state[i]) && Paired(state[j])
    requires OnlyTree(now, next, At(Target(state[i])))
    ensures Done(fs, now, state[j]) ==> Done(fs, next, state[j])
    ensures Pending(fs, now, state[j]) ==> Pending(fs, next, state[j])
  {
    hide Components, Apart, KOLLA_DEFAULTS, Spread, Paired, FileAbove, OnlyTree, SameTree;
    var t, e := At(Target(state[i])), state[j];
    TargetsApart(state, i, j);
    TreeKept(now, next, t, At(Target(e)));
    if e.dest.None? {
      KeyStaysGone(now, next, At(e.key));
    } else {
      TreeKept(now, next, t, At(e.dest.value));
      if Done(fs, now, e) {
        SameTreeTrans(next, At(e.source), now, At(e.source), fs, At(e.dest.value));
        SameTreeTrans(next, At(e.dest.value), now, At(e.dest.value), fs, At(e.dest.value));
      }
      if Pending(fs, now, e) {
        SameTreeTrans(next, At(e.source), now, At(e.source), fs, At(e.source));
        SameTreeTrans(next, At(e.dest.value), now, At(e.dest.value), fs, At(e.dest.value));
      }
    }
  }

  lemma KeyStaysGone(now: FS, next: FS, k: Path)
    requires SameTree(next, k, now, k)
    ensures k in now <==> k in next
  {
    assert Lookup(next, k + []) == Lookup(now, k + []);
    assert k + [] == k;
  }

  /** The entry itself. */
  lemma OwnEntry(fs: FS, now: FS, e: Tracked)
    requires WF(now) && Paired(e) && Possible(fs, e) && Pending(fs, now, e) && Absolute(e.key) && Apart(At(e.key), Home())
    ensures var r := Restored(now, e);
      r.1 == None && WF(r.0) && Done(fs, r.0, e) && OnlyTree(now, r.0, At(Target(e)))
  {
    hide Components, Apart, KOLLA_DEFAULTS, FileAbove, OnlyTree, SameTree, Restored, Absolute, WF;
    if e.dest.Some? {
      var a, b := At(e.source), At(e.dest.value);
      SameTreeSym(now, b, fs, b);
      KeyStaysGone(now, fs, b);
      RestoredEntry(now, e);
      var next := Restored(now, e).0;
      SameTreeTrans(next, a, now, b, fs, b);
      BackupDiffers(e.key);
      CrossApart(e.source, e.key, e.dest.value, e.key);
      TreeKept(now, next, a, b);
      SameTreeTrans(next, b, now, b, fs, b);
    } else {
      RestoredEntry(now, e);
    }
  }

  lemma SameTreeSym(f: FS, a: Path, g: FS, b: Path)
    requires SameTree(f, a, g, b)
    ensures SameTree(g, b, f, a)
  {
  }

  lemma BackupDiffers(key: string)
    ensures BackupPath(key) != key
  {
    assert |BackupPath(key)| > |key|;
  }

  /** As long as its copies are possible a restart works, and entries do not disturb each other. */
  lemma {:induction false} RestartLoop(fs: FS, state: seq<Tracked>, n: nat)
    requires WF(fs) && Spread(state) && AllPaired(state) && n <= |state|
    requires forall i :: 0 <= i < n ==> Possible(fs, state[i])
    ensures var r := RestoredUpTo(fs, state, n);
      && r.error == None && WF(r.fs)
      && (forall i :: 0 <= i < n ==> Done(fs, r.fs, state[i]))
      && (forall i :: n <= i < |state| ==> Pending(fs, r.fs, state[i]))
  {
    hide Restored, Done, Pending, Swapped, OnlyTree, WF, Paired, Components, Apart, FileAbove, Possible;
    if n == 0 {
      forall i | 0 <= i < |state| ensures Pending(fs, fs, state[i]) {
        PendingAtStart(fs, state[i]);
      }
    } else {
      RestartLoop(fs, state, n - 1);
      var now := RestoredUpTo(fs, state, n - 1).fs;
      OwnEntry(fs, now, state[n - 1]);
      var next := Restored(now, state[n - 1]).0;
      forall i | 0 <= i < |state| && i != n - 1
        ensures Done(fs, now, state[i]) ==> Done(fs, next, state[i])
        ensures Pending(fs, now, state[i]) ==> Pending(fs, next, state[i])
      {
        OtherEntry(fs, now, next, state, n - 1, i);
      }
    }
  }

  lemma PendingAtStart(fs: FS, e: Tracked)
    ensures Pending(fs, fs, e)
  {
  }

  /** An entry whose copy is not possible at the start is not possible when its turn comes. */
  lemma ImpossibleFails(fs: FS, now: FS, e: Tracked)
    requires Paired(e) && Absolute(e.key) && Pending(fs, now, e) && !Possible(fs, e)
    ensures Restored(now, e).1.Some?
  {
    hide Components, KOLLA_DEFAULTS, Absolute, FileAbove, SameTree;
    RestoredCases(now, e);
    CopyPaths(e.key);
    BackupIsBelowHome(e.key);
    KeyStaysGone(fs, now, At(e.dest.value));
  }

  /** The restoring pass of a restart works if and only if every copy is possible on the file system it starts with. */
  lemma RestartWorksIff(fs: FS, state: seq<Tracked>)
    requires WF(fs) && Spread(state) && AllPaired(state)
    ensures RestoredUpTo(fs, state, |state|).error.None? <==> forall i :: 0 <= i < |state| ==> Possible(fs, state[i])
  {
    hide *;
    if forall i :: 0 <= i < |state| ==> Possible(fs, state[i]) {
      RestartLoop(fs, state, |state|);
    } else {
      var n := FirstImpossible(fs, state, |state|);
      RestartLoop(fs, state, n);
      SpreadAt(state, n);
      PairedAt(state, n);
      ImpossibleFails(fs, RestoredUpTo(fs, state, n).fs, state[n]);
      StepFails(fs, state, n);
      RestoredStop(fs, state, n + 1);
    }
  }

  lemma {:induction false} FirstImpossible(fs: FS, state: seq<Tracked>, n: nat) returns (i: nat)
    requires n <= |state| && exists j :: 0 <= j < n && !Possible(fs, state[j])
    ensures i < n && !Possible(fs, state[i]) && forall j :: 0 <= j < i ==> Possible(fs, state[j])
  {
    hide Possible;
    if exists j :: 0 <= j < n - 1 && !Possible(fs, state[j]) {
      i := FirstImpossible(fs, state, n - 1);
    } else {
      i := n - 1;
    }
  }

  lemma PairedAt(state: seq<Tracked>, i: nat)
    requires AllPaired(state) && i < |state|
    ensures Paired(state[i])
  {
  }

  lemma StepFails(fs: FS, state: seq<Tracked>, n: nat)
    requires n < |state| && RestoredUpTo(fs, state, n).error.None?
    requires Restored(RestoredUpTo(fs, state, n).fs, state[n]).1.Some?
    ensures RestoredUpTo(fs, state, n + 1).error.Some?
  {
  }

  lemma SpreadAt(state: seq<Tracked>, i: nat)
    requires Spread(state) && i < |state|
    ensures Absolute(state[i].key) && Apart(At(state[i].key), Home())
  {
  }

  // ---------------------------------------------------------------- the first start saves the originals

  /** Nothing but the saved defaults changed. */
  ghost predicate OutsideKept(fs: FS, now: FS) {
    forall q: Path :: !(Home() <= q) ==> Lookup(now, q) == Lookup(fs, q)
  }

  /** The original of an entry is in its backup, or there was none. */
  ghost predicate Saved(fs: FS, now: FS, e: Tracked) {
    Added(e) && (if e.dest.None? then At(e.key) !in fs else At(e.key) in fs && SameTree(now, At(BackupPath(e.key)), fs, At(e.key)))
  }

  lemma OutsideTree(fs: FS, now: FS, a: Path)
    requires OutsideKept(fs, now) && Apart(a, Home())
    ensures SameTree(now, a, fs, a) && (a in now <==> a in fs)
  {
    forall r: Path ensures Lookup(now, a + r) == Lookup(fs, a + r) {
      ApartBelow(a, Home(), r);
    }
    KeyStaysGone(fs, now, a);
  }

  /** Backing up one path. */
  lemma BackUpOne(fs: FS, now: FS, key: string)
    requires WF(fs) && WF(now) && OutsideKept(fs, now) && IsDir(now, Home())
    requires Absolute(key) && Apart(At(key), Home()) && Exists(now, key)
    requires Copied(now, CopyOf(key, BackupPath(key))).1.None?
    ensures var next := Copied(now, CopyOf(key, BackupPath(key))).0;
      && WF(next) && OutsideKept(fs, next) && IsDir(next, Home())
      && Saved(fs, next, Tracked(key, key, Some(BackupPath(key))))
      && OnlyTree(now, next, At(BackupPath(key)))
  {
    hide *;
    var d := CopyOf(key, BackupPath(key));
    CopyPaths(key);
    BackupIsBelowHome(key);
    BackupReady(now, key);
    var next := Copied(now, d).0;
    CopyEffect(now, d);
    CopiedWF(now, d);
    EffectIsOnlyTree(now, next, d.To());
    OutsideTree(fs, now, At(key));
    SameTreeTrans(next, d.To(), now, At(key), fs, At(key));
    HomeStays(fs, now, next, At(key));
    SavedNow(fs, next, key);
  }

  lemma BackupReady(now: FS, key: string)
    requires Absolute(key) && Apart(At(key), Home()) && Exists(now, key)
    requires Copied(now, CopyOf(key, BackupPath(key))).1.None?
    ensures var d := CopyOf(key, BackupPath(key));
      && d.props == Preserve && !d.merge && !d.optional && HasDirname(d.dest) && Exists(now, d.source)
      && Apart(d.From(), d.To()) && Copyable(d) && !FileAbove(now, d.To())
      && At(key) in now && At(key) != []
  {
    hide Components, KOLLA_DEFAULTS, FileAbove, Split;
    CopyPaths(key);
    BackupIsBelowHome(key);
    BackupDiffers(key);
    CrossApart(key, key, BackupPath(key), key);
    BackupNotEmpty(key);
  }

  lemma EffectIsOnlyTree(fs: FS, now: FS, t: Path)
    requires forall q: Path :: !(t <= q) && (q in fs || !(q <= t)) ==> Lookup(now, q) == Lookup(fs, q)
    requires forall q: Path :: !(t <= q) && q <= t && q !in fs ==> Lookup(now, q) == Some(NEW_DIR)
    ensures OnlyTree(fs, now, t)
  {
  }

  lemma SavedNow(fs: FS, next: FS, key: string)
    requires SameTree(next, At(BackupPath(key)), fs, At(key)) && At(key) in fs && Absolute(key)
    ensures Saved(fs, next, Tracked(key, key, Some(BackupPath(key))))
  {
    hide Components, KOLLA_DEFAULTS, SameTree;
  }

  lemma BackupNotEmpty(key: string)
    ensures BackupPath(key) != ""
  {
    assert |BackupPath(key)| > 0;
  }

  lemma PrefixTrans(a: Path, b: Path, c: Path)
    ensures a <= b && b <= c ==> a <= c
  {
  }

  lemma HomeStays(fs: FS, now: FS, next: FS, a: Path)
    requires WF(now) && OutsideKept(fs, now) && IsDir(now, Home()) && a != []
    requires OnlyTree(now, next, Home() + a)
    ensures OutsideKept(fs, next) && IsDir(next, Home())
  {
    hide Components;
    var t := Home() + a;
    assert !(t <= Home());
    forall q: Path | !(Home() <= q) ensures Lookup(next, q) == Lookup(fs, q) {
      assert Home() <= t;
      PrefixTrans(Home(), t, q);
      if q <= t {
        assert q == t[..|q|];
        assert |q| < |Home()| ==> t[..|q|] == Home()[..|q|];
        AncestorIsDir(now, Home(), |q|);
      }
      assert Lookup(now, q) == Lookup(fs, q);
    }
  }

  lemma {:induction false} BackupLoop(fs: FS, files: seq<Data>, n: nat)
    requires WF(fs) && IsDir(fs, Home()) && Separate(files) && n <= |files|
    requires BackedUpTo(fs, [], files, n).error.None?
    ensures var r := BackedUpTo(fs, [], files, n);
      && WF(r.fs) && OutsideKept(fs, r.fs) && IsDir(r.fs, Home())
      && forall i :: 0 <= i < |r.state| ==> Saved(fs, r.fs, r.state[i])
  {
    hide *;
    if n == 0 {
      BackedUpStart(fs, [], files);
      NothingChanged(fs);
    } else {
      BackupNext(fs, files, n - 1);
      BackupLoop(fs, files, n - 1);
      BackedUpState(fs, [], files, n - 1);
      BackupStep(fs, BackedUpTo(fs, [], files, n - 1), files, n - 1);
    }
  }

  lemma BackupNext(fs: FS, files: seq<Data>, n: nat)
    requires n < |files| && BackedUpTo(fs, [], files, n + 1).error.None?
    ensures BackedUpTo(fs, [], files, n).error.None?
    ensures BackedUpTo(fs, [], files, n + 1) == BackedUp(BackedUpTo(fs, [], files, n), files[n])
  {
  }

  lemma NothingChanged(fs: FS)
    ensures OutsideKept(fs, fs)
  {
  }

  lemma BackupStep(fs: FS, before: Progress, files: seq<Data>, n: nat)
    requires WF(fs) && Separate(files) && n < |files| && before.error.None?
    requires WF(before.fs) && OutsideKept(fs, before.fs) && IsDir(before.fs, Home())
    requires forall i :: 0 <= i < |before.state| ==> Saved(fs, before.fs, before.state[i]) && From(before.state[i], files)
    requires BackedUp(before, files[n]).error.None?
    ensures var r := BackedUp(before, files[n]);
      && WF(r.fs) && OutsideKept(fs, r.fs) && IsDir(r.fs, Home())
      && forall i :: 0 <= i < |r.state| ==> Saved(fs, r.fs, r.state[i])
  {
    hide *;
    var dst, r := Dst(files[n]), BackedUp(before, files[n]);
    BackedUpCases(before, files[n]);
    SeparateAt(files, n);
    if r != before {
      if Exists(before.fs, dst) {
        BackUpOne(fs, before.fs, dst);
        forall i | 0 <= i < |before.state| ensures Saved(fs, r.fs, before.state[i]) {
          NotThisKey(before.state, dst, i);
          SavedStays(fs, before.fs, r.fs, before.state[i], files, n);
        }
      } else {
        NoOriginal(fs, before.fs, dst);
      }
    }
  }

  lemma SeparateAt(files: seq<Data>, n: nat)
    requires Separate(files) && n < |files|
    ensures Dst(files[n]) == ResolvedBySplit(files[n].dest, files[n].source)
    ensures Absolute(Dst(files[n])) && Apart(At(Dst(files[n])), Home())
  {
  }

  lemma NotThisKey(state: seq<Tracked>, key: string, i: nat)
    requires !HasKey(state, key) && i < |state|
    ensures state[i].key != key
  {
  }

  lemma NoOriginal(fs: FS, now: FS, key: string)
    requires OutsideKept(fs, now) && Absolute(key) && Apart(At(key), Home()) && !Exists(now, key)
    ensures Saved(fs, now, Tracked(key, key, None))
  {
    hide Components;
    OutsideTree(fs, now, At(key));
  }

  lemma SavedStays(fs: FS, now: FS, next: FS, e: Tracked, files: seq<Data>, n: nat)
    requires Saved(fs, now, e) && From(e, files) && Separate(files) && n < |files| && e.key != Dst(files[n])
    requires OnlyTree(now, next, At(BackupPath(Dst(files[n]))))
    ensures Saved(fs, next, e)
  {
    hide Components, KOLLA_DEFAULTS, SameTree, OnlyTree, BackupPath, Apart, ResolvedBySplit, Split;
    var dst := Dst(files[n]);
    var j :| 0 <= j < |files| && e.key == Dst(files[j]);
    if e.dest.Some? {
      var b := At(BackupPath(e.key));
      CrossApart(BackupPath(dst), dst, BackupPath(e.key), e.key);
      TreeKept(now, next, At(BackupPath(dst)), b);
      SameTreeTrans(next, b, now, b, fs, At(e.key));
    }
  }

  // ---------------------------------------------------------------- the first restart

  lemma StatePath()
    ensures Components(STATE_FILE) == Home() + ["state"]
  {
    assert STATE_FILE == KOLLA_DEFAULTS + "/state";
    ComponentsConcat(KOLLA_DEFAULTS, "/state");
    assert "/state"[1..] == "state";
    PiecesOfState();
  }

  lemma PiecesOfState()
    ensures Components("/state") == ["state"]
  {
    LastPiece("/state");
    SplitConcat("", "state");
    assert "" + "/" + "state" == "/state";
    NoSlash("state");
  }

  lemma ShorterPrefix(h: Path, c: string, p: Path)
    ensures p <= h + [c] && p != h + [c] ==> p <= h
  {
  }

  /** Making the home of the saved defaults leaves other trees alone. */
  lemma HomeMade(fs: FS)
    requires WF(fs) && !FileAbove(fs, Components(STATE_FILE))
    ensures var now := WithParents(fs, Components(STATE_FILE));
      && WF(now) && IsDir(now, Home())
      && (IsDir(fs, Home()) ==> now == fs)
      && forall a: Path :: Apart(a, Home()) ==> SameTree(now, a, fs, a)
  {
    hide Components;
    StatePath();
    var t := Home() + ["state"];
    var now := WithParents(fs, t);
    assert Parent(t) == Home();
    WithParentsWF(fs, t);
    forall a: Path | Apart(a, Home()) ensures SameTree(now, a, fs, a) {
      forall r: Path ensures Lookup(now, a + r) == Lookup(fs, a + r) {
        WithParentsAt(fs, t, a + r);
        ApartBelow(a, Home(), r);
        ShorterPrefix(Home(), "state", a + r);
      }
    }
    if IsDir(fs, Home()) {
      forall p ensures Lookup(now, p) == Lookup(fs, p) {
        WithParentsAt(fs, t, p);
        if p <= t && p != t {
          assert p == t[..|p|] == Home()[..|p|];
          if p != Home() { AncestorIsDir(fs, Home(), |p|); }
        }
      }
      Extensional(now, fs);
    }
  }

  /** The first start saves the original of every path that it tracks. */
  lemma FirstStart(fs: FS, files: seq<Data>)
    requires WF(fs) && Separate(files) && Handled(fs, None, files).error.None?
    ensures var r := Handled(fs, None, files);
      && WF(r.fs) && IsDir(r.fs, Home()) && Spread(r.state)
      && (forall i :: 0 <= i < |r.state| ==> Saved(fs, r.fs, r.state[i]))
      && (forall a: Path :: Apart(a, Home()) ==> SameTree(r.fs, a, fs, a))
  {
    hide Components, KOLLA_DEFAULTS, BackedUpTo, Saved, SameTree, From, OutsideKept, Spread, Separate, FileAbove, WithParents, WF, Apart;
    var base := WithParents(fs, Components(STATE_FILE));
    HomeMade(fs);
    RestoredStart(base, []);
    var r := Handled(fs, None, files);
    assert r == BackedUpTo(base, [], files, |files|);
    BackupLoop(base, files, |files|);
    HandledState(fs, None, files);
    SpreadOut(r.state, files);
    forall i | 0 <= i < |r.state| ensures Saved(fs, r.fs, r.state[i]) {
      SpreadAt(r.state, i);
      SavedBefore(fs, base, r.fs, r.state, i);
    }
    forall a: Path | Apart(a, Home()) ensures SameTree(r.fs, a, fs, a) {
      OutsideTree(base, r.fs, a);
      SameTreeTrans(r.fs, a, base, a, fs, a);
    }
  }

  lemma SpreadOut(state: seq<Tracked>, files: seq<Data>)
    requires Separate(files) && DistinctKeys(state) && forall i :: 0 <= i < |state| ==> From(state[i], files)
    ensures Spread(state)
  {
    hide Components, Apart, Absolute, ResolvedBySplit;
    forall i, j | 0 <= i < |state| && 0 <= j < |state| && i != j
      ensures Apart(At(state[i].key), At(state[j].key))
    {
      assert From(state[i], files) && From(state[j], files);
      var k :| 0 <= k < |files| && state[i].key == Dst(files[k]);
      var l :| 0 <= l < |files| && state[j].key == Dst(files[l]);
      assert state[i].key != state[j].key;
    }
    forall i | 0 <= i < |state| ensures Absolute(state[i].key) && Apart(At(state[i].key), Home()) {
      assert From(state[i], files);
      var k :| 0 <= k < |files| && state[i].key == Dst(files[k]);
    }
  }

  lemma SavedBefore(fs: FS, base: FS, now: FS, state: seq<Tracked>, i: nat)
    requires Spread(state) && i < |state| && Saved(base, now, state[i])
    requires SameTree(base, At(state[i].key), fs, At(state[i].key))
    ensures Saved(fs, now, state[i])
  {
    hide Components, KOLLA_DEFAULTS, SameTree;
    var e := state[i];
    KeyStaysGone(fs, base, At(e.key));
    if e.dest.Some? {
      SameTreeTrans(now, At(BackupPath(e.key)), base, At(e.key), fs, At(e.key));
    }
  }

  /**
   * The first restart brings the originals back: whatever happened to the file system in
   * between, as long as the saved defaults are intact and no file stands where a parent
   * directory of a saved path was, every tracked path has its original tree and
   * attributes again, or is absent again.
   */
  lemma FirstRestart(fs: FS, files: seq<Data>, later: FS)
    requires WF(fs) && Separate(files) && Handled(fs, None, files).error.None?
    requires WF(later) && forall q: Path :: Home() <= q ==> Lookup(later, q) == Lookup(Handled(fs, None, files).fs, q)
    requires forall e <- Handled(fs, None, files).state :: e.dest.Some? ==> !FileAbove(later, At(e.key))
    ensures var state := Handled(fs, None, files).state;
      var back := RestoredUpTo(WithParents(later, Components(STATE_FILE)), state, |state|);
      && back.error == None
      && forall i :: 0 <= i < |state| ==> SameTree(back.fs, At(state[i].key), fs, At(state[i].key))
  {
    hide *;
    var r := Handled(fs, None, files);
    FirstStart(fs, files);
    HomeIntact(r.fs, later);
    HomeMade(later);
    ReadyAfterFirst(fs, r.fs, later, r.state);
    RestartLoop(later, r.state, |r.state|);
    var back := RestoredUpTo(later, r.state, |r.state|);
    forall i | 0 <= i < |r.state| ensures SameTree(back.fs, At(r.state[i].key), fs, At(r.state[i].key)) {
      BackAgain(fs, r.fs, later, back.fs, r.state, i);
    }
  }

  lemma HomeIntact(now: FS, later: FS)
    requires IsDir(now, Home()) && WF(later) && forall q: Path :: Home() <= q ==> Lookup(later, q) == Lookup(now, q)
    ensures IsDir(later, Home()) && !FileAbove(later, Components(STATE_FILE))
  {
    hide Components, KOLLA_DEFAULTS;
    StatePath();
    assert Lookup(later, Home()) == Lookup(now, Home());
    var t := Home() + ["state"];
    forall k | 0 <= k < |t| ensures IsDir(later, t[..k]) {
      assert t[..k] == Home()[..k];
      if k < |Home()| { AncestorIsDir(later, Home(), k); } else { assert t[..k] == Home(); }
    }
  }

  lemma ReadyAfterFirst(fs: FS, now: FS, later: FS, state: seq<Tracked>)
    requires Spread(state) && forall i :: 0 <= i < |state| ==> Saved(fs, now, state[i])
    requires forall q: Path :: Home() <= q ==> Lookup(later, q) == Lookup(now, q)
    requires forall e <- state :: e.dest.Some? ==> !FileAbove(later, At(e.key))
    ensures AllPaired(state) && forall i :: 0 <= i < |state| ==> Possible(later, state[i])
  {
    hide Components, KOLLA_DEFAULTS, FileAbove, SameTree;
    forall i | 0 <= i < |state| ensures Paired(state[i]) && Possible(later, state[i]) {
      var e := state[i];
      assert e in state;
      if e.dest.Some? {
        BackupTreeIntact(now, later, e.key);
        SameTreeTrans(later, At(BackupPath(e.key)), now, At(BackupPath(e.key)), fs, At(e.key));
        HasRoot(fs, later, At(e.key), At(BackupPath(e.key)));
      }
    }
  }

  lemma HasRoot(fs: FS, now: FS, a: Path, b: Path)
    requires a in fs && SameTree(now, b, fs, a)
    ensures b in now
  {
    assert a + [] == a && b + [] == b;
    assert Lookup(now, b + []) == Lookup(fs, a + []);
  }

  lemma BackupTreeIntact(now: FS, later: FS, key: string)
    requires Absolute(key) && forall q: Path :: Home() <= q ==> Lookup(later, q) == Lookup(now, q)
    ensures SameTree(later, At(BackupPath(key)), now, At(BackupPath(key)))
  {
    hide Components, KOLLA_DEFAULTS;
    BackupIsBelowHome(key);
    forall r: Path ensures Lookup(later, At(BackupPath(key)) + r) == Lookup(now, At(BackupPath(key)) + r) {
      assert At(BackupPath(key)) + r == Home() + (At(key) + r);
      assert Home() <= Home() + (At(key) + r);
    }
  }

  lemma BackAgain(fs: FS, now: FS, later: FS, back: FS, state: seq<Tracked>, i: nat)
    requires WF(fs) && WF(back) && Spread(state) && i < |state| && Saved(fs, now, state[i]) && Done(later, back, state[i])
    requires forall q: Path :: Home() <= q ==> Lookup(later, q) == Lookup(now, q)
    ensures SameTree(back, At(state[i].key), fs, At(state[i].key))
  {
    hide Components, KOLLA_DEFAULTS;
    var e := state[i];
    if e.dest.Some? {
      BackupTreeIntact(now, later, e.key);
      SameTreeTrans(later, At(BackupPath(e.key)), now, At(BackupPath(e.key)), fs, At(e.key));
      SameTreeTrans(back, At(e.key), later, At(BackupPath(e.key)), fs, At(e.key));
    } else {
      BothEmpty(back, fs, At(e.key));
    }
  }

  lemma BothEmpty(f: FS, g: FS, a: Path)
    requires WF(f) && WF(g) && a !in f && a !in g
    ensures SameTree(f, a, g, a)
  {
    forall r: Path ensures Lookup(f, a + r) == Lookup(g, a + r) {
      if r != [] {
        NothingBelow(f, a, a + r);
        NothingBelow(g, a, a + r);
      } else {
        assert a + r == a;
      }
    }
  }
}
