/** Inputs for which the check complains right after a start, and when a source exists at its turn. */
module Drift {
  import opened Statuses
  import opened FileSystems
  import opened Paths
  import opened Copying
  import opened Overlays
  import opened Defaults
  import opened Tracking
  import opened RoundTrip
  import opened Restarts

  // ---------------------------------------------------------------- when its turn comes

  /** Where `backup_configs` would copy the destination of the entry. */
  function BackupTarget(d: Data): Path { CopyOf(Dst(d), BackupPath(Dst(d))).To() }

  lemma {:induction false} ExistsAtItsTurn(fs: FS, state: seq<Tracked>, files: seq<Data>, n: nat, path: string)
    requires n <= |files| && forall i :: 0 <= i < n ==> Apart(BackupTarget(files[i]), Components(path))
    ensures Exists(BackedUpTo(fs, state, files, n).fs, path) <==> Exists(fs, path)
  {
    hide Components, Copied, HasKey, Apart, BackupTarget, CopyOf, BackupPath;
    if n > 0 {
      ExistsAtItsTurn(fs, state, files, n - 1, path);
      var before := BackedUpTo(fs, state, files, n - 1);
      StepKeeps(before, files[n - 1], path);
    }
  }

  lemma StepKeeps(before: Progress, d: Data, path: string)
    requires Apart(BackupTarget(d), Components(path))
    ensures Exists(BackedUp(before, d).fs, path) <==> Exists(before.fs, path)
  {
    hide *;
    BackedUpCases(before, d);
    BackupTargetIs(d);
    var c := CopyOf(Dst(d), BackupPath(Dst(d)));
    OnlyDestination(before.fs, c);
    ExistsKept(before.fs, Copied(before.fs, c).0, BackupTarget(d), path);
  }

  lemma BackupTargetIs(d: Data)
    ensures BackupTarget(d) == CopyOf(Dst(d), BackupPath(Dst(d))).To() && Dst(d) == ResolvedBySplit(d.dest, d.source)
  {
  }

  lemma ExistsKept(fs: FS, now: FS, t: Path, path: string)
    requires OnlyTree(fs, now, t) && Apart(t, Components(path))
    ensures Exists(now, path) <==> Exists(fs, path)
  {
    hide Components;
    var a := Components(path);
    assert Lookup(now, a) == Lookup(fs, a);
  }

  /**
   * The condition on a first start, read off the file system before it: for a source away
   * from the backups and from the directory of the defaults, existing at its turn is existing at the start.
   */
  lemma SourceAtItsTurn(fs: FS, files: seq<Data>, n: nat)
    requires n < |files| && !(Components(files[n].source) <= Components(STATE_FILE))
    requires forall i :: 0 <= i < n ==> Apart(BackupTarget(files[i]), Components(files[n].source))
    ensures Exists(BackedUpTo(Begun(fs, None).fs, Begun(fs, None).state, files, n).fs, files[n].source)
       <==> Exists(fs, files[n].source)
  {
    hide BackedUpTo, Components, Apart;
    var base := WithParents(fs, Components(STATE_FILE));
    ExistsAtItsTurn(base, [], files, n, files[n].source);
    WithParentsAt(fs, Components(STATE_FILE), Components(files[n].source));
    RestoredStart(base, []);
  }

  // ---------------------------------------------------------------- a path that is no longer listed

  /** A tracked path that the configuration no longer lists. */
  lemma RemovedFileDrifts()
    ensures var gone := "/etc/old.conf"; var kept := Data("/s/new.conf", "/etc/new.conf", Preserve, false, false);
      Drifted([Tracked(gone, gone, None)], [kept]) && !Drifted([Tracked(kept.dest, kept.dest, None)], [kept])
  {
    var gone, kept := "/etc/old.conf", Data("/s/new.conf", "/etc/new.conf", Preserve, false, false);
    hide Dests, Basename, ResolvedByJoin;
    assert gone[5] == 'o' && kept.dest[5] == 'n' && kept.dest[|kept.dest| - 1] == 'f';
    UnlistedIff(gone, [kept]);
    UnlistedIff(kept.dest, [kept]);
    assert [kept][0] == kept && [Tracked(gone, gone, None)][0].key == gone;
  }

  // ---------------------------------------------------------------- an entry without a destination

  /** A directory that the first entry replaces, and in it the source of the second. */
  const MOUNTED: FS := map[
    [] := NEW_DIR, ["a"] := NEW_DIR, ["a", "x"] := File("x", NEW_DIR.attr), ["b"] := File("b", NEW_DIR.attr)]

  const FIRST := Data("/b", "/a", Preserve, false, false)

  const SECOND := Data("/a/x", "", Preserve, true, false)

  lemma Names()
    ensures At("/a") == ["a"] && At("/b") == ["b"] && At("/a/x") == ["a", "x"] && Home() == ["etc", "kolla", "defaults"]
    ensures Absolute("/a") && Absolute("/b") && Dst(FIRST) == "/a" && Dst(SECOND) == "" && HasDirname("/a")
  {
    hide Components;
    OnePiece("a");
    OnePiece("b");
    OnePiece("x");
    assert "/" + "a" == "/a" && "/" + "b" == "/b" && "/" + "x" == "/x" && "/a" + "/x" == "/a/x";
    ComponentsConcat("/a", "/x");
    assert ["a"] + ["x"] == ["a", "x"];
    HomeIs();
    assert "/a"[1] == 'a' && "/a"[0] == '/';
  }

  lemma MountedIsFileSystem()
    ensures WF(MOUNTED)
  {
    forall p | p in MOUNTED && p != [] ensures IsDir(MOUNTED, Parent(p)) {
      if |p| == 1 { assert Parent(p) == []; } else { assert Parent(p) == ["a"]; }
    }
  }

  lemma MountedHome()
    ensures !FileAbove(MOUNTED, Home() + ["state"])
    ensures forall q <- MOUNTED :: !(Home() <= q)
  {
    hide Components, KOLLA_DEFAULTS;
    Names();
    var s := Home() + ["state"];
    forall k | 0 <= k < |s| && s[..k] in MOUNTED ensures MOUNTED[s[..k]].Dir? {
      if k > 0 { assert s[..k][0] == "etc"; } else { assert s[..k] == []; }
    }
    forall q | q in MOUNTED ensures !(Home() <= q) {
      assert |q| < 3;
    }
  }

  lemma NotHome()
    ensures Apart(["a"], Home()) && Apart(["b"], Home()) && Apart(["a", "x"], Home()) && Apart(["b", "x"], Home())
  {
    hide Components, KOLLA_DEFAULTS;
    Names();
    assert |"a"| != |"etc"| && |"b"| != |"etc"|;
    assert ["a"][0] != Home()[0] && ["b"][0] != Home()[0] && ["a", "x"][0] != Home()[0] && ["b", "x"][0] != Home()[0];
  }

  /** Making the home of the defaults leaves the other trees alone and has room for the backup. */
  lemma MountedBase()
    ensures var base := WithParents(MOUNTED, Components(STATE_FILE));
      && !FileAbove(MOUNTED, Components(STATE_FILE)) && WF(base)
      && (forall a: Path :: Apart(a, Home()) ==> Lookup(base, a) == Lookup(MOUNTED, a))
      && !FileAbove(base, At(BackupPath("/a")))
  {
    hide Components, KOLLA_DEFAULTS, BackupPath, MOUNTED, FileAbove, WF, Apart;
    Names();
    MountedIsFileSystem();
    MountedHome();
    StatePath();
    HomeMade(MOUNTED);
    var base := WithParents(MOUNTED, Components(STATE_FILE));
    forall a: Path | Apart(a, Home()) ensures Lookup(base, a) == Lookup(MOUNTED, a) {
      assert a + [] == a;
      assert Lookup(base, a + []) == Lookup(MOUNTED, a + []);
    }
    HomeMadeEmpty(MOUNTED);
    BackupIsBelowHome("/a");
    EmptyHome(base, ["a"]);
  }

  /** Saving the defaults: the first entry is backed up, the second is tracked under the empty path. */
  lemma MountedSaved()
    ensures var r := Handled(MOUNTED, None, [FIRST, SECOND]);
      && r.error == None && WF(r.fs) && HasKey(r.state, "")
      && (forall a: Path :: Apart(a, Home()) ==> Lookup(r.fs, a) == Lookup(MOUNTED, a))
  {
    hide *;
    MountedBase();
    Names();
    NotHome();
    var base := WithParents(MOUNTED, Components(STATE_FILE));
    var first := BackedUp(Progress(base, [], None), FIRST);
    var second := BackedUp(first, SECOND);
    MountedNodes(base);
    BackedUpCases(Progress(base, [], None), FIRST);
    NoKeys("/a");
    BackupFits(base, "/a");
    assert first.fs == Copied(base, CopyOf("/a", BackupPath("/a"))).0;
    HomeOnly(base, first.fs, "/a");
    MountedNodes(first.fs);
    BackedUpCases(first, SECOND);
    OneKey(first.state, "/a");
    HandledTwo(MOUNTED, FIRST, SECOND);
  }

  /** What of the three nodes the start looks at. */
  lemma MountedNodes(fs: FS)
    requires Apart(["a"], Home()) && Apart(["b"], Home()) && Apart(["a", "x"], Home())
    requires At("/a") == ["a"] && At("/b") == ["b"] && At("/a/x") == ["a", "x"]
    requires forall a: Path :: Apart(a, Home()) ==> Lookup(fs, a) == Lookup(MOUNTED, a)
    ensures Exists(fs, "/a") && Exists(fs, "/b") && Exists(fs, "/a/x") && !Exists(fs, "")
    ensures FIRST.source == "/b" && FIRST.dest == "/a" && SECOND.source == "/a/x" && SECOND.dest == ""
    ensures ResolvedBySplit(FIRST.dest, FIRST.source) == Dst(FIRST) && ResolvedBySplit(SECOND.dest, SECOND.source) == Dst(SECOND)
  {
    hide Components;
    assert Lookup(fs, ["a"]) == Lookup(MOUNTED, ["a"]) && Lookup(fs, ["b"]) == Lookup(MOUNTED, ["b"]);
    assert Lookup(fs, ["a", "x"]) == Lookup(MOUNTED, ["a", "x"]);
  }

  lemma NoKeys(key: string)
    ensures !HasKey([], key)
  {
  }

  lemma OneKey(state: seq<Tracked>, key: string)
    requires state == [Tracked(key, key, Some(BackupPath(key)))] && key != ""
    ensures !HasKey(state, "") && HasKey(state + [Tracked("", "", None)], "")
  {
    assert (state + [Tracked("", "", None)])[1].key == "";
  }

  /** A backup changes nothing outside the directory of the defaults, if that directory is there. */
  lemma HomeOnly(fs: FS, now: FS, key: string)
    requires Absolute(key) && OnlyTree(fs, now, At(BackupPath(key)))
    ensures forall a: Path :: Apart(a, Home()) ==> Lookup(now, a) == Lookup(fs, a)
  {
    hide Components, KOLLA_DEFAULTS, Absolute, BackupPath;
    BackupIsBelowHome(key);
    forall a: Path | Apart(a, Home()) ensures Lookup(now, a) == Lookup(fs, a) {
      ApartSym(a, Home());
      ApartBelow(Home(), a, At(key));
    }
  }

  lemma HandledTwo(fs: FS, d: Data, e: Data)
    requires !FileAbove(fs, Components(STATE_FILE))
    ensures var first := BackedUp(Progress(WithParents(fs, Components(STATE_FILE)), [], None), d);
      var second := BackedUp(first, e);
      first.error.None? && second.error.None? ==> Handled(fs, None, [d, e]) == second
  {
    hide BackedUp, Components, FileAbove;
    var base := WithParents(fs, Components(STATE_FILE));
    RestoredStart(base, []);
    BackedUpStart(base, [], [d, e]);
    assert [d, e][0] == d && [d, e][1] == e;
    assert BackedUpTo(base, [], [d, e], 1) == BackedUp(Progress(base, [], None), d);
  }

  /** Copying the configuration: the first entry replaces the directory, the source of the second is gone. */
  lemma MountedCopied(fs: FS)
    requires WF(fs) && forall a: Path :: Apart(a, Home()) ==> Lookup(fs, a) == Lookup(MOUNTED, a)
    ensures AllCopied(fs, [FIRST, SECOND], 2).1 == None
  {
    hide Components, KOLLA_DEFAULTS, Split, Replace, Overlay, Apart;
    Names();
    NotHome();
    MountedNodes(fs);
    assert FIRST.To() == ["a"] by { ResolversAgree("/a", "/b"); }
    assert ["a"][..0] == [] && !FileAbove(fs, ["a"]);
    var now := Replace(fs, Preserve, ["b"], ["a"]);
    assert Copied(fs, FIRST) == (now, None);
    ReplaceLookup(fs, Preserve, ["b"], ["a"], ["a", "x"]);
    assert ["a", "x"][1..] == ["x"] && ["b"] + ["x"] == ["b", "x"];
    assert Lookup(fs, ["b", "x"]) == Lookup(MOUNTED, ["b", "x"]);
    assert ["a", "x"] !in now;
    assert Copied(now, SECOND) == (now, None);
    assert AllCopied(fs, [FIRST, SECOND], 1) == (now, None);
  }

  /** A first start that gets through to its end, and a check of the same configuration that complains. */
  lemma EmptyDestinationDrifts()
    ensures var r := Handled(MOUNTED, None, [FIRST, SECOND]);
      && r.error == None && AllCopied(r.fs, [FIRST, SECOND], 2).1 == None
      && Drifted(r.state, [FIRST, SECOND])
  {
    hide Handled, AllCopied, Dests, MOUNTED, Apart;
    MountedSaved();
    MountedCopied(Handled(MOUNTED, None, [FIRST, SECOND]).fs);
    EmptyIsNoDest([FIRST, SECOND]);
  }
}
