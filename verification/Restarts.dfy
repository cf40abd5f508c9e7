/** Starts, configuration copies and restarts put together. */
module Restarts {
  import opened Statuses
  import opened FileSystems
  import opened Paths
  import opened Copying
  import opened Overlays
  import opened Defaults
  import opened Tracking
  import opened RoundTrip

  // ---------------------------------------------------------------- copying the configuration in between

  /** Copying an entry changes only the tree at its destination, apart from created parents. */
  lemma CopiedOnlyTree(fs: FS, d: Data)
    requires WF(fs) && Copyable(d) && Absolute(Dst(d))
    ensures OnlyTree(fs, Copied(fs, d).0, At(Dst(d))) && WF(Copied(fs, d).0)
  {
    hide Components, Split, Overlay, Replace, WF, Basename;
    ResolversAgree(d.dest, d.source);
    assert d.dest != "";
    CopiedWF(fs, d);
    OverlayOnlyTree(fs, d.props, d.From(), d.To());
    ReplaceOnlyTree(fs, d.props, d.From(), d.To());
  }

  /** A copy changes only the tree at its destination, apart from created parents. */
  lemma OnlyDestination(fs: FS, d: Data)
    ensures OnlyTree(fs, Copied(fs, d).0, d.To())
  {
    hide Components, ResolvedByJoin, Overlay, Replace;
    OverlayOnlyTree(fs, d.props, d.From(), d.To());
    ReplaceOnlyTree(fs, d.props, d.From(), d.To());
  }

  lemma OverlayOnlyTree(fs: FS, props: Props, src: Path, dst: Path)
    ensures OnlyTree(fs, Overlay(fs, props, src, dst), dst)
  {
    var now := Overlay(fs, props, src, dst);
    forall q: Path | !(dst <= q)
      ensures Lookup(now, q) == Lookup(fs, q) || (q <= dst && q !in fs && Lookup(now, q) == Some(NEW_DIR))
    {
      OverlayLookup(fs, props, src, dst, q);
    }
  }

  lemma ReplaceOnlyTree(fs: FS, props: Props, src: Path, dst: Path)
    ensures OnlyTree(fs, Replace(fs, props, src, dst), dst)
  {
    var now := Replace(fs, props, src, dst);
    forall q: Path | !(dst <= q)
      ensures Lookup(now, q) == Lookup(fs, q) || (q <= dst && q !in fs && Lookup(now, q) == Some(NEW_DIR))
    {
      ReplaceLookup(fs, props, src, dst, q);
    }
  }

  /** What `copy_config` leaves alone. */
  ghost predicate Harmless(fs: FS, now: FS, files: seq<Data>) {
    && WF(now) && SameTree(now, Home(), fs, Home())
    && forall i :: 0 <= i < |files| && FileAbove(now, At(Dst(files[i]))) ==> FileAbove(fs, At(Dst(files[i])))
  }

  /** `copy_config`, however far it gets, leaves the saved defaults alone and puts no file above a destination. */
  lemma {:induction false} ConfigCopyHarmless(fs: FS, files: seq<Data>, n: nat)
    requires WF(fs) && Separate(files) && FilesSound(files) && n <= |files|
    ensures Harmless(fs, AllCopied(fs, files, n).0, files)
  {
    hide *;
    if n == 0 {
      AllCopiedStart(fs, files);
      HarmlessStart(fs, files);
    } else {
      ConfigCopyHarmless(fs, files, n - 1);
      var before := AllCopied(fs, files, n - 1);
      if before.1.None? {
        AllCopiedNext(fs, files, n - 1);
        HarmlessNext(fs, before.0, files, n - 1);
      } else {
        AllCopiedStuck(fs, files, n);
      }
    }
  }

  lemma AllCopiedStuck(fs: FS, files: seq<Data>, n: nat)
    requires 0 < n <= |files| && AllCopied(fs, files, n - 1).1.Some?
    ensures AllCopied(fs, files, n) == AllCopied(fs, files, n - 1)
  {
  }

  lemma HarmlessStart(fs: FS, files: seq<Data>)
    requires WF(fs)
    ensures Harmless(fs, fs, files)
  {
  }

  lemma HarmlessNext(fs: FS, before: FS, files: seq<Data>, n: nat)
    requires Separate(files) && n < |files| && Copyable(files[n]) && Harmless(fs, before, files)
    ensures Harmless(fs, Copied(before, files[n]).0, files)
  {
    hide Copied, SameTree, FileAbove, Components, KOLLA_DEFAULTS, WF, OnlyTree, Apart, Dst, Copyable, Absolute;
    CopiedOnlyTree(before, files[n]);
    var now, t := Copied(before, files[n]).0, At(Dst(files[n]));
    TreeKept(before, now, t, Home());
    SameTreeTrans(now, Home(), before, Home(), fs, Home());
    forall i | 0 <= i < |files| && FileAbove(now, At(Dst(files[i]))) ensures FileAbove(before, At(Dst(files[i]))) {
      TreeKept(before, now, t, At(Dst(files[i])));
    }
  }

  lemma HomeTree(fs: FS, now: FS, q: Path)
    requires SameTree(now, Home(), fs, Home()) && Home() <= q
    ensures Lookup(now, q) == Lookup(fs, q)
  {
    hide Components, KOLLA_DEFAULTS;
    assert q == Home() + q[|Home()|..];
  }

  /** Above a node there are only directories. */
  lemma NothingAbove(fs: FS, a: Path)
    requires WF(fs) && a in fs
    ensures !FileAbove(fs, a)
  {
    forall k | 0 <= k < |a| ensures IsDir(fs, a[..k]) {
      AncestorIsDir(fs, a, k);
    }
  }

  /**
   * The round trip: a first start with COPY_ALWAYS, as far as copying the configuration gets,
   * followed by the restoring pass of the first restart, gives every tracked path back.
   */
  lemma StartThenRestart(fs: FS, files: seq<Data>)
    requires WF(fs) && Separate(files) && FilesSound(files) && Handled(fs, None, files).error.None?
    ensures var first := Handled(fs, None, files);
      var later := AllCopied(first.fs, files, |files|).0;
      var back := RestoredUpTo(WithParents(later, Components(STATE_FILE)), first.state, |first.state|);
      && back.error == None
      && forall i :: 0 <= i < |first.state| ==> SameTree(back.fs, At(first.state[i].key), fs, At(first.state[i].key))
  {
    hide *;
    var first := Handled(fs, None, files);
    var later := AllCopied(first.fs, files, |files|).0;
    FirstStart(fs, files);
    HandledState(fs, None, files);
    ConfigCopyHarmless(first.fs, files, |files|);
    HarmlessMeans(first.fs, later, files);
    forall q: Path | Home() <= q ensures Lookup(later, q) == Lookup(first.fs, q) {
      HomeTree(first.fs, later, q);
    }
    forall e | e in first.state && e.dest.Some? ensures !FileAbove(later, At(e.key)) {
      var i :| 0 <= i < |first.state| && first.state[i] == e;
      SpreadAt(first.state, i);
      KeyStood(fs, first.fs, files, e);
      if FileAbove(later, At(e.key)) {
        KeyOf(e, files);
      }
    }
    FirstRestart(fs, files, later);
  }

  lemma HarmlessMeans(fs: FS, now: FS, files: seq<Data>)
    requires Harmless(fs, now, files)
    ensures WF(now) && SameTree(now, Home(), fs, Home())
    ensures forall i :: 0 <= i < |files| && FileAbove(now, At(Dst(files[i]))) ==> FileAbove(fs, At(Dst(files[i])))
  {
  }

  lemma KeyOf(e: Tracked, files: seq<Data>)
    requires From(e, files)
    ensures exists i :: 0 <= i < |files| && e.key == Dst(files[i])
  {
  }

  lemma KeyStood(fs: FS, now: FS, files: seq<Data>, e: Tracked)
    requires WF(now) && Saved(fs, now, e) && e.dest.Some? && Apart(At(e.key), Home())
    requires SameTree(now, At(e.key), fs, At(e.key))
    ensures !FileAbove(now, At(e.key))
  {
    hide Components, KOLLA_DEFAULTS, FileAbove;
    HasRoot(fs, now, At(e.key), At(e.key));
    NothingAbove(now, At(e.key));
  }

  // ---------------------------------------------------------------- the first start cannot fail

  /** Where the backup of an entry goes. */
  function BackupOf(d: Data): Path { At(BackupPath(Dst(d))) }

  /** No backup of the configuration would lie below a file. */
  ghost predicate RoomForBackups(fs: FS, files: seq<Data>) {
    forall i :: 0 <= i < |files| ==> !FileAbove(fs, BackupOf(files[i]))
  }

  /** In an empty directory of defaults there is room. */
  lemma RoomInEmptyHome(fs: FS, files: seq<Data>)
    requires WF(fs) && IsDir(fs, Home()) && Separate(files)
    requires forall q <- fs :: !(Home() <= q) || q == Home()
    ensures RoomForBackups(fs, files)
  {
    hide Components, KOLLA_DEFAULTS, Dst, Apart;
    forall i | 0 <= i < |files| ensures !FileAbove(fs, BackupOf(files[i])) {
      SeparateAt(files, i);
      BackupIsBelowHome(Dst(files[i]));
      EmptyHome(fs, At(Dst(files[i])));
    }
  }

  lemma EmptyHome(fs: FS, a: Path)
    requires WF(fs) && IsDir(fs, Home()) && forall q <- fs :: !(Home() <= q) || q == Home()
    ensures !FileAbove(fs, Home() + a)
  {
    hide Components, KOLLA_DEFAULTS;
    var h, b := Home(), Home() + a;
    forall k | 0 <= k < |b| && b[..k] in fs ensures fs[b[..k]].Dir? {
      if k < |h| {
        assert b[..k] == h[..k];
        AncestorIsDir(fs, h, k);
      } else {
        assert b[..k] == h + a[..k - |h|];
        assert h <= b[..k];
      }
    }
  }

  /** Making the home of the defaults puts nothing into it. */
  lemma HomeMadeEmpty(fs: FS)
    requires forall q <- fs :: !(Home() <= q) || q == Home()
    ensures forall q <- WithParents(fs, Components(STATE_FILE)) :: !(Home() <= q) || q == Home()
  {
    hide Components, KOLLA_DEFAULTS;
    StatePath();
    forall q | q in WithParents(fs, Components(STATE_FILE)) ensures !(Home() <= q) || q == Home() {
      WithParentsAt(fs, Components(STATE_FILE), q);
      ShorterPrefix(Home(), "state", q);
    }
  }

  /** One backup neither fails nor takes the room of another. */
  lemma RoomStays(before: Progress, files: seq<Data>, n: nat)
    requires WF(before.fs) && before.error.None? && Separate(files) && n < |files| && RoomForBackups(before.fs, files)
    ensures var r := BackedUp(before, files[n]);
      r.error.None? && WF(r.fs) && RoomForBackups(r.fs, files)
  {
    hide *;
    var dst, r := Dst(files[n]), BackedUp(before, files[n]);
    BackedUpCases(before, files[n]);
    SeparateAt(files, n);
    RoomAt(before.fs, files, n);
    if Exists(before.fs, dst) {
      BackupFits(before.fs, dst);
      var next := Copied(before.fs, CopyOf(dst, BackupPath(dst))).0;
      forall i | 0 <= i < |files| ensures !FileAbove(next, BackupOf(files[i])) {
        RoomAt(before.fs, files, i);
        BackupsApart(files, n, i);
        TreeKept(before.fs, next, BackupOf(files[n]), BackupOf(files[i]));
      }
      RoomAgain(next, files);
    }
  }

  lemma RoomAt(fs: FS, files: seq<Data>, i: nat)
    requires RoomForBackups(fs, files) && i < |files|
    ensures !FileAbove(fs, BackupOf(files[i])) && BackupOf(files[i]) == At(BackupPath(Dst(files[i])))
  {
  }

  lemma RoomAgain(fs: FS, files: seq<Data>)
    requires forall i :: 0 <= i < |files| ==> !FileAbove(fs, BackupOf(files[i]))
    ensures RoomForBackups(fs, files)
  {
  }

  lemma BackupsApart(files: seq<Data>, i: nat, j: nat)
    requires Separate(files) && i < |files| && j < |files|
    ensures Apart(BackupOf(files[i]), BackupOf(files[j])) || BackupOf(files[i]) == BackupOf(files[j])
  {
    hide Components, KOLLA_DEFAULTS, Dst, Apart, BackupPath;
    if Dst(files[i]) != Dst(files[j]) {
      CrossApart(BackupPath(Dst(files[i])), Dst(files[i]), BackupPath(Dst(files[j])), Dst(files[j]));
    }
  }

  /** A backup with room for it is made, and changes only its own tree. */
  lemma BackupFits(fs: FS, key: string)
    requires WF(fs) && Absolute(key) && Apart(At(key), Home()) && Exists(fs, key) && !FileAbove(fs, At(BackupPath(key)))
    ensures var r := Copied(fs, CopyOf(key, BackupPath(key)));
      r.1 == None && WF(r.0) && OnlyTree(fs, r.0, At(BackupPath(key)))
  {
    hide Components, KOLLA_DEFAULTS, FileAbove, WF, Split, Overlay, Replace;
    CopyPaths(key);
    BackupIsBelowHome(key);
    BackupDiffers(key);
    BackupNotEmpty(key);
    CrossApart(key, key, BackupPath(key), key);
    var d := CopyOf(key, BackupPath(key));
    CopiedWF(fs, d);
    ReplaceOnlyTree(fs, d.props, d.From(), d.To());
  }

  lemma {:induction false} BackupsNeverFail(fs: FS, files: seq<Data>, n: nat)
    requires WF(fs) && Separate(files) && n <= |files| && RoomForBackups(fs, files)
    ensures var r := BackedUpTo(fs, [], files, n); r.error.None? && WF(r.fs) && RoomForBackups(r.fs, files)
  {
    hide *;
    if n == 0 {
      BackedUpStart(fs, [], files);
    } else {
      BackupsNeverFail(fs, files, n - 1);
      RoomStays(BackedUpTo(fs, [], files, n - 1), files, n - 1);
      OneMoreBackup(fs, files, n - 1);
    }
  }

  lemma OneMoreBackup(fs: FS, files: seq<Data>, n: nat)
    requires n < |files| && BackedUpTo(fs, [], files, n).error.None?
    ensures BackedUpTo(fs, [], files, n + 1) == BackedUp(BackedUpTo(fs, [], files, n), files[n])
  {
  }

  /** With nothing in the directory of defaults, `handle_defaults` fails if and only if a file stands where that directory has to be. */
  lemma FirstStartFailsIff(fs: FS, files: seq<Data>)
    requires WF(fs) && Separate(files) && forall q <- fs :: !(Home() <= q) || q == Home()
    ensures Handled(fs, None, files).error.Some? <==> FileAbove(fs, Components(STATE_FILE))
  {
    if !FileAbove(fs, Components(STATE_FILE)) {
      hide Components, KOLLA_DEFAULTS, BackedUpTo, FileAbove, WithParents, WF, RoomForBackups, Separate;
      var base := WithParents(fs, Components(STATE_FILE));
      HomeMade(fs);
      HomeMadeEmpty(fs);
      RoomInEmptyHome(base, files);
      BackupsNeverFail(base, files, |files|);
      RestoredStart(base, []);
    }
  }

  // ---------------------------------------------------------------- any restart

  /** The state after any history consists of paired entries. */
  lemma HistoryIsPaired(history: seq<Boot>)
    ensures AllPaired(StateAfter(history))
  {
    hide StateAfter, Age, BackupPath;
    forall i | 0 <= i < |StateAfter(history)| ensures Paired(StateAfter(history)[i]) {
      EntriesByAge(history, i);
    }
  }

  /** On a restart that works, after any history: an entry of even age is restored, one of odd age overwrites its backup. */
  lemma RestartByAge(history: seq<Boot>, fs: FS, i: nat)
    requires WF(fs) && i < |StateAfter(history)| && Spread(StateAfter(history))
    requires RestoredUpTo(fs, StateAfter(history), |StateAfter(history)|).error.None?
    ensures var state := StateAfter(history);
      var back := RestoredUpTo(fs, state, |state|);
      var key := state[i].key;
      && (state[i].dest.None? ==> At(key) !in back.fs)
      && (state[i].dest.Some? && Age(history, i) % 2 == 0 ==>
            SameTree(back.fs, At(key), fs, At(BackupPath(key))) && SameTree(back.fs, At(BackupPath(key)), fs, At(BackupPath(key))))
      && (state[i].dest.Some? && Age(history, i) % 2 == 1 ==>
            SameTree(back.fs, At(BackupPath(key)), fs, At(key)) && SameTree(back.fs, At(key), fs, At(key)))
  {
    hide StateAfter, Age, SameTree, Components, KOLLA_DEFAULTS, Spread, AllPaired, Possible, RestoredUpTo, WF;
    HistoryIsPaired(history);
    RestartWorksIff(fs, StateAfter(history));
    EntriesByAge(history, i);
    RestartLoop(fs, StateAfter(history), |StateAfter(history)|);
  }

  /**
   * At a second restart (odd age) the backup is overwritten: it still holds the original
   * afterwards if and only if the tracked path holds the original when the restart begins.
   */
  lemma OriginalKeptIff(history: seq<Boot>, fs: FS, i: nat, original: FS)
    requires WF(fs) && i < |StateAfter(history)| && Spread(StateAfter(history))
    requires RestoredUpTo(fs, StateAfter(history), |StateAfter(history)|).error.None?
    requires StateAfter(history)[i].dest.Some? && Age(history, i) % 2 == 1
    ensures var state := StateAfter(history);
      var key := state[i].key;
      SameTree(RestoredUpTo(fs, state, |state|).fs, At(BackupPath(key)), original, At(key)) <==>
        SameTree(fs, At(key), original, At(key))
  {
    hide *;
    RestartByAge(history, fs, i);
    var state := StateAfter(history);
    var key, back := state[i].key, RestoredUpTo(fs, state, |state|).fs;
    SameTreeSym(back, At(BackupPath(key)), fs, At(key));
    if SameTree(fs, At(key), original, At(key)) {
      SameTreeTrans(back, At(BackupPath(key)), fs, At(key), original, At(key));
    }
    if SameTree(back, At(BackupPath(key)), original, At(key)) {
      SameTreeTrans(fs, At(key), back, At(BackupPath(key)), original, At(key));
    }
  }

  /** When every destination is tracked already, `backup_configs` does nothing: such a start only restores. */
  lemma {:induction false} NothingToBackUp(fs: FS, state: seq<Tracked>, files: seq<Data>, n: nat)
    requires n <= |files| && forall d <- files :: HasKey(state, Dst(d))
    ensures BackedUpTo(fs, state, files, n) == Progress(fs, state, None)
  {
    hide Exists, Copied, Split, HasKey;
    if n > 0 {
      NothingToBackUp(fs, state, files, n - 1);
      assert files[n - 1] in files;
    }
  }

  // ---------------------------------------------------------------- the original is lost

  lemma HomeIs()
    ensures Home() == ["etc", "kolla", "defaults"]
  {
    hide Components;
    OnePiece("etc");
    OnePiece("kolla");
    OnePiece("defaults");
    assert "/" + "etc" == "/etc" && "/" + "kolla" == "/kolla" && "/" + "defaults" == "/defaults";
    ComponentsConcat("/etc", "/kolla");
    ComponentsConcat("/etc" + "/kolla", "/defaults");
    assert "/etc" + "/kolla" + "/defaults" == KOLLA_DEFAULTS;
  }

  /** The backup of an absolute path lies below the directory of the defaults, at the same place as below the root. */
  lemma BackupPlace(key: string)
    requires Absolute(key)
    ensures At(BackupPath(key)) == ["etc", "kolla", "defaults"] + At(key)
  {
    hide Components, KOLLA_DEFAULTS;
    HomeIs();
    BackupIsBelowHome(key);
  }

  /** A container on its second restart: the path holds the configuration, the backup the original. */
  const LATE: FS := map[
    [] := NEW_DIR, ["etc"] := NEW_DIR, ["etc", "kolla"] := NEW_DIR, ["etc", "kolla", "defaults"] := NEW_DIR,
    ["etc", "kolla", "defaults", "a"] := File("original", NEW_DIR.attr), ["a"] := File("configuration", NEW_DIR.attr)]

  const ONCE_RESTARTED := [Tracked("/a", BackupPath("/a"), Some("/a"))]

  /** One restart later the configuration stands where the original was saved. */
  lemma OriginalIsLost()
    ensures Lookup(LATE, Home() + ["a"]) == Some(File("original", NEW_DIR.attr))
    ensures RestoredUpTo(LATE, ONCE_RESTARTED, 1).error == None
    ensures Lookup(RestoredUpTo(LATE, ONCE_RESTARTED, 1).fs, Home() + ["a"]) == Some(File("configuration", NEW_DIR.attr))
  {
    hide Components, RestoredUpTo, KOLLA_DEFAULTS, BackupPath;
    HomeIs();
    OnePiece("a");
    assert "/" + "a" == "/a";
    BackupIsBelowHome("/a");
    assert Home() + ["a"] == ["etc", "kolla", "defaults", "a"];
    LateIsReady();
    RestartLoop(LATE, ONCE_RESTARTED, 1);
    var back := RestoredUpTo(LATE, ONCE_RESTARTED, 1).fs;
    assert Done(LATE, back, ONCE_RESTARTED[0]);
    assert Lookup(back, At(BackupPath("/a")) + []) == Lookup(LATE, At("/a") + []);
    assert At(BackupPath("/a")) + [] == Home() + ["a"] && At("/a") + [] == ["a"];
  }

  lemma LateIsReady()
    requires Home() == ["etc", "kolla", "defaults"] && At("/a") == ["a"] && At(BackupPath("/a")) == Home() + ["a"]
    ensures WF(LATE) && Spread(ONCE_RESTARTED) && AllPaired(ONCE_RESTARTED) && Possible(LATE, ONCE_RESTARTED[0])
  {
    hide Components, KOLLA_DEFAULTS, BackupPath;
    forall p | p in LATE && p != [] ensures IsDir(LATE, Parent(p)) {
      LateParents(p);
    }
    var b := Home() + ["a"];
    forall k | 0 <= k < |b| ensures IsDir(LATE, b[..k]) {
      LatePrefix(k);
    }
    assert |"a"| != |"etc"| && ["a"][0] != Home()[0];
    assert Absolute("/a") && Apart(["a"], Home());
    assert Possible(LATE, ONCE_RESTARTED[0]);
  }

  lemma LateParents(p: Path)
    requires p in LATE && p != []
    ensures IsDir(LATE, Parent(p))
  {
    if |p| == 1 { assert Parent(p) == []; }
    else if |p| == 2 { assert Parent(p) == ["etc"]; }
    else if |p| == 3 { assert Parent(p) == ["etc", "kolla"]; }
    else { assert Parent(p) == ["etc", "kolla", "defaults"]; }
  }

  lemma LatePrefix(k: nat)
    requires k < 4
    ensures IsDir(LATE, (["etc", "kolla", "defaults"] + ["a"])[..k])
  {
    var b := ["etc", "kolla", "defaults"] + ["a"];
    if k == 0 { assert b[..k] == []; }
    else if k == 1 { assert b[..k] == ["etc"]; }
    else if k == 2 { assert b[..k] == ["etc", "kolla"]; }
    else { assert b[..k] == ["etc", "kolla", "defaults"]; }
  }
}
