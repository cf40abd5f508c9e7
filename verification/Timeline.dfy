/** Three starts in a row with one configuration: what becomes of the saved originals. */
module Timeline {
  import opened Statuses
  import opened FileSystems
  import opened Paths
  import opened Copying
  import opened Overlays
  import opened Defaults
  import opened Tracking
  import opened RoundTrip
  import opened Restarts

  // ---------------------------------------------------------------- states of one configuration

  lemma FromMore(e: Tracked, some: seq<Data>, files: seq<Data>)
    requires From(e, some) && forall d <- some :: d in files
    ensures From(e, files)
  {
    var j :| 0 <= j < |some| && e.key == ResolvedBySplit(some[j].dest, some[j].source);
    assert some[j] in files;
    var k :| 0 <= k < |files| && files[k] == some[j];
    hide ResolvedBySplit;
  }

  /** The tracked paths are spread out if all configurations so far are part of one separate one. */
  lemma HistoryIsSpread(history: seq<Boot>, files: seq<Data>)
    requires Separate(files) && forall b <- history :: forall d <- b.files :: d in files
    ensures Spread(StateAfter(history))
  {
    hide StateAfter, From, Separate, DistinctKeys, Spread;
    KeysDistinct(history);
    forall i | 0 <= i < |StateAfter(history)| ensures From(StateAfter(history)[i], files) {
      var k := TrackedComesFrom(history, i);
      assert history[k] in history;
      FromMore(StateAfter(history)[i], history[k].files, files);
    }
    SpreadOut(StateAfter(history), files);
  }

  // ---------------------------------------------------------------- file systems stay well formed

  lemma {:induction false} BackedUpWF(fs: FS, state: seq<Tracked>, files: seq<Data>, n: nat)
    requires WF(fs) && FilesSound(files) && n <= |files|
    ensures WF(BackedUpTo(fs, state, files, n).fs)
  {
    hide Copied, Components, WF, HasKey, FilesSound, Copyable, ResolvedBySplit, Split;
    if n > 0 {
      BackedUpWF(fs, state, files, n - 1);
      var before := BackedUpTo(fs, state, files, n - 1);
      if before.error.None? {
        BackedUpNext(fs, state, files, n - 1);
        BackedUpCases(before, files[n - 1]);
        var dst := ResolvedBySplit(files[n - 1].dest, files[n - 1].source);
        if Exists(before.fs, dst) {
          CopiedWF(before.fs, CopyOf(dst, BackupPath(dst)));
        }
      }
    }
  }

  /** Backing up leaves the backups of tracked paths alone. */
  lemma {:induction false} BackupsKept(fs: FS, state: seq<Tracked>, files: seq<Data>, n: nat, key: string)
    requires Separate(files) && n <= |files| && HasKey(state, key)
    requires exists m :: 0 <= m < |files| && Dst(files[m]) == key
    ensures var r := BackedUpTo(fs, state, files, n);
      HasKey(r.state, key) && SameTree(r.fs, At(BackupPath(key)), fs, At(BackupPath(key)))
  {
    hide *;
    if n == 0 {
      BackedUpStart(fs, state, files);
      SameTreeRefl(fs, At(BackupPath(key)));
    } else {
      BackupsKept(fs, state, files, n - 1, key);
      var before := BackedUpTo(fs, state, files, n - 1);
      BackedUpMore(fs, state, files, n - 1);
      if before.error.None? {
        BackupKept(before, files, n - 1, key);
        SameTreeTrans(BackedUpTo(fs, state, files, n).fs, At(BackupPath(key)), before.fs, At(BackupPath(key)),
                      fs, At(BackupPath(key)));
      }
    }
  }

  lemma SameTreeRefl(fs: FS, a: Path)
    ensures SameTree(fs, a, fs, a)
  {
  }

  lemma BackedUpMore(fs: FS, state: seq<Tracked>, files: seq<Data>, n: nat)
    requires n < |files|
    ensures var before := BackedUpTo(fs, state, files, n);
      BackedUpTo(fs, state, files, n + 1) == if before.error.Some? then before else BackedUp(before, files[n])
  {
  }

  lemma BackupKept(before: Progress, files: seq<Data>, n: nat, key: string)
    requires Separate(files) && n < |files| && HasKey(before.state, key)
    requires exists m :: 0 <= m < |files| && Dst(files[m]) == key
    ensures var r := BackedUp(before, files[n]);
      HasKey(r.state, key) && SameTree(r.fs, At(BackupPath(key)), before.fs, At(BackupPath(key)))
  {
    hide *;
    var dst := Dst(files[n]);
    SeparateAt(files, n);
    BackedUpCases(before, files[n]);
    SameTreeRefl(before.fs, At(BackupPath(key)));
    KeyStays(before.state, key, Tracked(dst, dst, Some(BackupPath(dst))));
    KeyStays(before.state, key, Tracked(dst, dst, None));
    if dst != key {
      OtherBackup(before.fs, files, n, key);
    }
  }

  lemma KeyStays(state: seq<Tracked>, key: string, e: Tracked)
    requires HasKey(state, key)
    ensures HasKey(state + [e], key)
  {
    var i :| 0 <= i < |state| && state[i].key == key;
    assert (state + [e])[i].key == key;
  }

  lemma OtherBackup(fs: FS, files: seq<Data>, n: nat, key: string)
    requires Separate(files) && n < |files| && Dst(files[n]) != key
    requires exists m :: 0 <= m < |files| && Dst(files[m]) == key
    ensures var now := Copied(fs, CopyOf(Dst(files[n]), BackupPath(Dst(files[n])))).0;
      SameTree(now, At(BackupPath(key)), fs, At(BackupPath(key)))
  {
    hide Components, KOLLA_DEFAULTS, Copied, BackupPath, Apart, OnlyTree, SameTree, ResolvedBySplit, Split;
    var dst := Dst(files[n]);
    var m :| 0 <= m < |files| && Dst(files[m]) == key;
    CopyPaths(dst);
    BackupIsBelowHome(dst);
    var d := CopyOf(dst, BackupPath(dst));
    OnlyDestination(fs, d);
    CrossApart(BackupPath(dst), dst, BackupPath(key), key);
    TreeKept(fs, Copied(fs, d).0, At(BackupPath(dst)), At(BackupPath(key)));
  }

  // ---------------------------------------------------------------- the second and the third start

  /** A start that works on a state of this configuration: what it restores, on which file system, and that it ends well formed. */
  lemma StartWorks(fs: FS, state: seq<Tracked>, files: seq<Data>)
    requires WF(fs) && FilesSound(files) && Spread(state) && AllPaired(state)
    requires Handled(fs, Some(state), files).error.None?
    ensures var base := WithParents(fs, Components(STATE_FILE));
      var restored := RestoredUpTo(base, state, |state|);
      && restored.error == None && WF(base) && WF(restored.fs) && WF(Handled(fs, Some(state), files).fs)
      && Handled(fs, Some(state), files) == BackedUpTo(restored.fs, restored.state, files, |files|)
      && (forall i :: 0 <= i < |state| ==> Done(base, restored.fs, state[i]))
      && (forall a: Path :: Apart(a, Home()) ==> SameTree(base, a, fs, a))
  {
    hide *;
    HandledParts(fs, state, files);
    HomeMade(fs);
    var base := WithParents(fs, Components(STATE_FILE));
    RestartWorksIff(base, state);
    RestartLoop(base, state, |state|);
    var restored := RestoredUpTo(base, state, |state|);
    BackedUpWF(restored.fs, restored.state, files, |files|);
  }

  lemma HandledParts(fs: FS, state: seq<Tracked>, files: seq<Data>)
    requires Handled(fs, Some(state), files).error.None?
    ensures !FileAbove(fs, Components(STATE_FILE))
    ensures var restored := RestoredUpTo(WithParents(fs, Components(STATE_FILE)), state, |state|);
      restored.error == None && Handled(fs, Some(state), files) == BackedUpTo(restored.fs, restored.state, files, |files|)
  {
    hide BackedUpTo, RestoredUpTo, WithParents, FileAbove, Components, STATE_FILE, BackedUp, Restored;
  }

  /** The states of the first two starts. */
  lemma TwoStates(fs: FS, later: FS, files: seq<Data>)
    requires Separate(files) && Handled(fs, None, files).error.None?
    requires Handled(later, Some(Handled(fs, None, files).state), files).error.None?
    ensures var one := Handled(fs, None, files).state;
      var two := Handled(later, Some(one), files).state;
      && Spread(one) && AllPaired(one) && Spread(two) && AllPaired(two) && |one| <= |two|
      && (forall i :: 0 <= i < |one| ==> Added(one[i]) && From(one[i], files) && two[i] == Swapped(one[i]))
  {
    hide Handled, Separate, Spread, ResolvedBySplit, BackupPath;
    var one := Handled(fs, None, files).state;
    var two := Handled(later, Some(one), files).state;
    HandledState(fs, None, files);
    HandledState(later, Some(one), files);
    SpreadOut(one, files);
    forall i | 0 <= i < |two| ensures From(two[i], files) {
      if i < |one| { FromKey(one[i], two[i], files); }
    }
    SpreadOut(two, files);
  }

  /**
   * Three starts with the configuration copied after the first two: whatever a path held
   * when the configuration had been copied the second time is what its backup holds after the third
   * start.  The original, which the backup held until then, is gone.
   */
  lemma BackupReplaced(fs: FS, files: seq<Data>, i: nat)
    requires WF(fs) && Separate(files) && FilesSound(files)
    requires Handled(fs, None, files).error.None? && i < |Handled(fs, None, files).state|
    requires Handled(fs, None, files).state[i].dest.Some?
    requires var one := Handled(fs, None, files);
      var two := Handled(AllCopied(one.fs, files, |files|).0, Some(one.state), files);
      var three := Handled(AllCopied(two.fs, files, |files|).0, Some(two.state), files);
      two.error.None? && three.error.None?
    ensures var one := Handled(fs, None, files);
      var two := Handled(AllCopied(one.fs, files, |files|).0, Some(one.state), files);
      var copied := AllCopied(two.fs, files, |files|).0;
      var three := Handled(copied, Some(two.state), files);
      var key := one.state[i].key;
      && SameTree(one.fs, At(BackupPath(key)), fs, At(key))
      && SameTree(three.fs, At(BackupPath(key)), copied, At(key))
  {
    hide *;
    var one := Handled(fs, None, files);
    var once := AllCopied(one.fs, files, |files|).0;
    var two := Handled(once, Some(one.state), files);
    var copied := AllCopied(two.fs, files, |files|).0;
    FirstStart(fs, files);
    ConfigCopyHarmless(one.fs, files, |files|);
    HarmlessMeans(one.fs, once, files);
    TwoStates(fs, once, files);
    StartWorks(once, one.state, files);
    ConfigCopyHarmless(two.fs, files, |files|);
    HarmlessMeans(two.fs, copied, files);
    SavedMeans(fs, one.fs, one.state[i]);
    ThirdStart(copied, two.state, files, i, one.state[i]);
  }

  lemma SavedMeans(fs: FS, now: FS, e: Tracked)
    requires Saved(fs, now, e) && e.dest.Some?
    ensures Added(e) && SameTree(now, At(BackupPath(e.key)), fs, At(e.key))
  {
  }

  lemma ThirdStart(fs: FS, state: seq<Tracked>, files: seq<Data>, i: nat, e: Tracked)
    requires WF(fs) && Separate(files) && FilesSound(files) && Spread(state) && AllPaired(state) && i < |state|
    requires Added(e) && e.dest.Some? && From(e, files) && state[i] == Swapped(e)
    requires Handled(fs, Some(state), files).error.None?
    ensures SameTree(Handled(fs, Some(state), files).fs, At(BackupPath(e.key)), fs, At(e.key))
  {
    hide *;
    StartWorks(fs, state, files);
    SpreadAt(state, i);
    SwappedEntry(e);
    KeyOf(e, files);
    var base := WithParents(fs, Components(STATE_FILE));
    var restored := RestoredUpTo(base, state, |state|);
    DoneMeans(base, restored.fs, state[i]);
    StateKeeps(base, state, i);
    BackupsKept(restored.fs, restored.state, files, |files|, e.key);
    var b := At(BackupPath(e.key));
    SameTreeTrans(restored.fs, b, base, At(e.key), fs, At(e.key));
    SameTreeTrans(Handled(fs, Some(state), files).fs, b, restored.fs, b, fs, At(e.key));
  }

  lemma SwappedEntry(e: Tracked)
    requires Added(e) && e.dest.Some?
    ensures Swapped(e) == Tracked(e.key, BackupPath(e.key), Some(e.key))
  {
  }

  lemma DoneMeans(fs: FS, now: FS, e: Tracked)
    requires Done(fs, now, e) && e.dest.Some?
    ensures SameTree(now, At(e.source), fs, At(e.dest.value))
  {
  }

  lemma StateKeeps(fs: FS, state: seq<Tracked>, i: nat)
    requires i < |state| && RestoredUpTo(fs, state, |state|).error.None?
    ensures HasKey(RestoredUpTo(fs, state, |state|).state, state[i].key)
  {
    hide RestoredUpTo;
    RestoredState(fs, state, |state|);
    assert RestoredUpTo(fs, state, |state|).state[i].key == state[i].key;
  }

  // ---------------------------------------------------------------- what the path holds after the copy

  /** No entry's source overlaps a destination, and no destination is listed twice. */
  ghost predicate Independent(files: seq<Data>) {
    && (forall i, j :: 0 <= i < |files| && 0 <= j < |files| ==> Apart(files[i].From(), At(Dst(files[j]))))
    && (forall i, j :: 0 <= i < j < |files| ==> Dst(files[i]) != Dst(files[j]))
  }

  /** The tree that copying the entry without merging puts at its destination. */
  ghost predicate InPlace(fs: FS, now: FS, d: Data) {
    forall r: Path ::
      Lookup(now, At(Dst(d)) + r) == if d.From() + r in fs then Some(Placed(d.props, fs[d.From() + r])) else None
  }

  lemma InPlaceKept(fs: FS, now: FS, next: FS, d: Data)
    requires InPlace(fs, now, d) && SameTree(next, At(Dst(d)), now, At(Dst(d)))
    ensures InPlace(fs, next, d)
  {
    hide Components, Dst;
    forall r: Path ensures Lookup(next, At(Dst(d)) + r) == if d.From() + r in fs then Some(Placed(d.props, fs[d.From() + r])) else None {
      assert Lookup(next, At(Dst(d)) + r) == Lookup(now, At(Dst(d)) + r);
    }
  }

  lemma InPlaceNow(fs: FS, before: FS, d: Data)
    requires Exists(before, d.source) && Copied(before, d).1.None? && !d.merge
    requires SameTree(before, d.From(), fs, d.From())
    ensures InPlace(fs, Copied(before, d).0, d)
  {
    hide Components, Copied;
    ResolversAgree(d.dest, d.source);
    var now := Copied(before, d).0;
    forall r: Path ensures Lookup(now, At(Dst(d)) + r) == if d.From() + r in fs then Some(Placed(d.props, fs[d.From() + r])) else None {
      ReplacedIsSource(before, d, r);
      assert Lookup(before, d.From() + r) == Lookup(fs, d.From() + r);
    }
  }

  lemma IndependentAt(files: seq<Data>, i: nat, j: nat)
    requires Independent(files) && Separate(files) && i < |files| && j < |files|
    ensures Apart(At(Dst(files[j])), files[i].From())
    ensures i != j ==> Apart(At(Dst(files[j])), At(Dst(files[i])))
  {
  }

  /** After `copy_config` got through, the destination of an entry without merge holds the tree of its source. */
  lemma {:induction false} ConfigInPlace(fs: FS, files: seq<Data>, n: nat, i: nat)
    requires WF(fs) && Separate(files) && FilesSound(files) && Independent(files) && i < |files| && n <= |files|
    requires AllCopied(fs, files, n).1.None? && Exists(fs, files[i].source) && !files[i].merge
    ensures var now := AllCopied(fs, files, n).0;
      WF(now) && SameTree(now, files[i].From(), fs, files[i].From()) && (i < n ==> InPlace(fs, now, files[i]))
  {
    hide *;
    if n == 0 {
      AllCopiedStart(fs, files);
      SameTreeRefl(fs, files[i].From());
    } else {
      AllCopiedBefore(fs, files, n - 1);
      ConfigInPlace(fs, files, n - 1, i);
      var before, d := AllCopied(fs, files, n - 1).0, files[n - 1];
      AllCopiedNext(fs, files, n - 1);
      SeparateAt(files, n - 1);
      CopiedOnlyTree(before, d);
      var now := Copied(before, d).0;
      IndependentAt(files, i, n - 1);
      TreeKept(before, now, At(Dst(d)), files[i].From());
      SameTreeTrans(now, files[i].From(), before, files[i].From(), fs, files[i].From());
      if i < n - 1 {
        TreeKept(before, now, At(Dst(d)), At(Dst(files[i])));
        InPlaceKept(fs, before, now, files[i]);
      } else if i == n - 1 {
        SourceStands(fs, before, d);
        InPlaceNow(fs, before, d);
      }
    }
  }

  lemma AllCopiedBefore(fs: FS, files: seq<Data>, n: nat)
    requires n < |files| && AllCopied(fs, files, n + 1).1.None?
    ensures AllCopied(fs, files, n).1.None?
  {
  }

  lemma SourceStands(fs: FS, now: FS, d: Data)
    requires Exists(fs, d.source) && SameTree(now, d.From(), fs, d.From())
    ensures Exists(now, d.source)
  {
    hide Components;
    KeyStaysGone(fs, now, d.From());
  }
}
