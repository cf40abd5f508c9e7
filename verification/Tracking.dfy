/** The state dictionary over any sequence of starts, each on whatever file system and configuration it finds. */
module Tracking {
  import opened Statuses
  import opened FileSystems
  import opened Paths
  import opened Copying
  import opened Defaults

  /** What one start finds. */
  datatype Boot = Boot(fs: FS, files: seq<Data>)

  /** The state file after the starts of `history`, from a fresh container. */
  ghost function FileAfter(history: seq<Boot>): Option<seq<Tracked>> {
    if history == [] then None
    else
      var b := history[|history| - 1];
      var before := FileAfter(history[..|history| - 1]);
      var r := Handled(b.fs, before, b.files);
      if r.error.None? then Some(r.state) else before
  }

  ghost function StateAfter(history: seq<Boot>): seq<Tracked> {
    var file := FileAfter(history);
    if file.Some? then file.value else []
  }

  /** The last start of `history` got through `handle_defaults`. */
  ghost predicate LastWorked(history: seq<Boot>)
    requires history != []
  {
    var b := history[|history| - 1];
    Handled(b.fs, FileAfter(history[..|history| - 1]), b.files).error.None?
  }

  /** How many starts have worked since entry `i` was added. */
  ghost function Age(history: seq<Boot>, i: nat): nat {
    if history == [] then 0
    else
      var before := history[..|history| - 1];
      Age(before, i) + if LastWorked(history) && i < |StateAfter(before)| then 1 else 0
  }

  // ---------------------------------------------------------------- one start

  /** Restoring swaps every entry once and adds none. */
  lemma {:induction false} RestoredState(fs: FS, state: seq<Tracked>, n: nat)
    requires n <= |state| && RestoredUpTo(fs, state, n).error.None?
    ensures forall i :: 0 <= i < |state| ==>
      RestoredUpTo(fs, state, n).state[i] == if i < n then Swapped(state[i]) else state[i]
  {
    hide Restored, Swapped;
    if n > 0 {
      RestoredState(fs, state, n - 1);
    }
  }

  /** What an entry looks like when it is added. */
  predicate Added(e: Tracked) {
    e.source == e.key && (e.dest.None? || (e.key != "" && e.dest == Some(BackupPath(e.key))))
  }

  ghost predicate From(e: Tracked, files: seq<Data>) {
    exists j :: 0 <= j < |files| && e.key == ResolvedBySplit(files[j].dest, files[j].source)
  }

  ghost predicate DistinctKeys(state: seq<Tracked>) {
    forall i, j :: 0 <= i < j < |state| ==> state[i].key != state[j].key
  }

  /** Backing up adds entries at the end, for destinations of the configuration. */
  lemma {:induction false} BackedUpState(fs: FS, state: seq<Tracked>, files: seq<Data>, n: nat)
    requires n <= |files|
    ensures var r := BackedUpTo(fs, state, files, n);
      && state <= r.state
      && (forall i :: |state| <= i < |r.state| ==> Added(r.state[i]) && From(r.state[i], files))
      && (DistinctKeys(state) ==> DistinctKeys(r.state))
  {
    if n > 0 {
      BackedUpState(fs, state, files, n - 1);
      var before := BackedUpTo(fs, state, files, n - 1);
      if before.error.None? {
        BackedUpOne(before, files, n - 1);
      }
    }
    hide BackedUp, Added, From;
  }

  lemma BackedUpOne(before: Progress, files: seq<Data>, n: nat)
    requires n < |files| && before.error.None?
    ensures var r := BackedUp(before, files[n]);
      && (r.state == before.state
          || (|r.state| == |before.state| + 1 && r.state[..|before.state|] == before.state
              && Added(r.state[|before.state|]) && From(r.state[|before.state|], files)
              && !HasKey(before.state, r.state[|before.state|].key)))
      && (DistinctKeys(before.state) ==> DistinctKeys(r.state))
  {
    hide Copied, Components, ResolvedBySplit;
  }

  /** One start that works: old entries are swapped, new ones are added behind them. */
  lemma HandledState(fs: FS, file: Option<seq<Tracked>>, files: seq<Data>)
    requires Handled(fs, file, files).error.None?
    ensures var earlier := if file.Some? then file.value else [];
      var now := Handled(fs, file, files).state;
      && |earlier| <= |now|
      && (forall i :: 0 <= i < |earlier| ==> now[i] == Swapped(earlier[i]))
      && (forall i :: |earlier| <= i < |now| ==> Added(now[i]) && From(now[i], files))
      && (DistinctKeys(earlier) ==> DistinctKeys(now))
  {
    hide BackedUpTo, RestoredUpTo, Added, From, FileAbove, WithParents, Components;
    var state := if file.Some? then file.value else [];
    var restored := RestoredUpTo(WithParents(fs, Components(STATE_FILE)), state, |state|);
    RestoredState(WithParents(fs, Components(STATE_FILE)), state, |state|);
    BackedUpState(restored.fs, restored.state, files, |files|);
    if DistinctKeys(state) {
      assert DistinctKeys(restored.state) by {
        forall i, j | 0 <= i < j < |state| ensures restored.state[i].key != restored.state[j].key {
          assert restored.state[i] == Swapped(state[i]) && restored.state[j] == Swapped(state[j]);
        }
      }
    }
  }

  // ---------------------------------------------------------------- all starts

  /** The keys only grow and keep their order; an entry without a backup stays so, and the two paths of an entry stay. */
  lemma KeysOnlyGrow(history: seq<Boot>, b: Boot)
    ensures var before, now := StateAfter(history), StateAfter(history + [b]);
      && |before| <= |now|
      && (forall i :: 0 <= i < |before| ==>
            && now[i].key == before[i].key
            && (now[i].dest.None? <==> before[i].dest.None?)
            && (now[i].dest.None? ==> now[i].source == before[i].source)
            && (now[i].dest.Some? ==> {now[i].source, now[i].dest.value} == {before[i].source, before[i].dest.value}))
  {
    hide Handled;
    var h := history + [b];
    assert h[..|h| - 1] == history;
    var r := Handled(b.fs, FileAfter(history), b.files);
    if r.error.None? {
      HandledState(b.fs, FileAfter(history), b.files);
    }
  }

  /** An entry as it is after `age` starts: its two paths change places every time. */
  predicate ByAge(e: Tracked, age: nat) {
    if e.dest.None? then e.source == e.key
    else if e.key == "" then false
    else if age % 2 == 0 then e.source == e.key && e.dest.value == BackupPath(e.key)
    else e.source == BackupPath(e.key) && e.dest.value == e.key
  }

  /** Every entry, over any sequence of starts: two paths that change places with every start that works. */
  lemma {:induction false} EntriesByAge(history: seq<Boot>, i: nat)
    requires i < |StateAfter(history)|
    ensures ByAge(StateAfter(history)[i], Age(history, i))
  {
    hide Handled;
    if history != [] {
      var before := history[..|history| - 1];
      var b := history[|history| - 1];
      if i < |StateAfter(before)| {
        EntriesByAge(before, i);
      } else {
        AgeOfNew(before, i);
      }
      if LastWorked(history) {
        HandledState(b.fs, FileAfter(before), b.files);
      }
    }
  }

  lemma {:induction false} AgeOfNew(history: seq<Boot>, i: nat)
    requires i >= |StateAfter(history)|
    ensures Age(history, i) == 0
  {
    hide Handled;
    if history != [] {
      var before := history[..|history| - 1];
      var b := history[|history| - 1];
      if LastWorked(history) {
        HandledState(b.fs, FileAfter(before), b.files);
      }
      AgeOfNew(before, i);
    }
  }

  /** An entry with a backup has its own path as source exactly after an even number of swaps. */
  lemma SourceIsKeyIff(history: seq<Boot>, i: nat)
    requires i < |StateAfter(history)|
    ensures var e := StateAfter(history)[i];
      && (e.dest.Some? ==> (e.source == e.key <==> Age(history, i) % 2 == 0))
      && (e.dest.None? ==> e.source == e.key)
      && (e.dest.Some? ==> {e.source, e.dest.value} == {e.key, BackupPath(e.key)})
  {
    hide StateAfter, Age;
    EntriesByAge(history, i);
    assert |BackupPath(StateAfter(history)[i].key)| > |StateAfter(history)[i].key|;
  }

  lemma {:induction false} KeysDistinct(history: seq<Boot>)
    ensures DistinctKeys(StateAfter(history))
  {
    hide Handled;
    if history != [] {
      KeysDistinct(history[..|history| - 1]);
      var b := history[|history| - 1];
      if LastWorked(history) {
        HandledState(b.fs, FileAfter(history[..|history| - 1]), b.files);
      }
    }
  }

  // ---------------------------------------------------------------- drift

  /** A key that was resolved from the configuration is one of its destinations, unless it is empty. */
  lemma NewIsDest(e: Tracked, files: seq<Data>)
    requires From(e, files)
    ensures e.key in Dests(files) || e.key == ""
  {
    var j :| 0 <= j < |files| && e.key == ResolvedBySplit(files[j].dest, files[j].source);
    ResolversAgree(files[j].dest, files[j].source);
    assert files[j] in files;
  }

  lemma EmptyIsNoDest(files: seq<Data>)
    ensures "" !in Dests(files)
  {
  }

  /** Entry `i` makes `backup_configs` track the path `key` when its turn comes. */
  ghost predicate TakesUp(fs: FS, state: seq<Tracked>, files: seq<Data>, i: nat, key: string)
    requires i < |files|
  {
    var before := BackedUpTo(fs, state, files, i);
    && key == ResolvedBySplit(files[i].dest, files[i].source) && Exists(before.fs, files[i].source)
    && !HasKey(before.state, files[i].dest)
  }

  lemma TakenUpStep(before: Progress, d: Data, key: string)
    requires BackedUp(before, d).error.None?
    ensures HasKey(BackedUp(before, d).state, key) <==>
      || HasKey(before.state, key)
      || (key == ResolvedBySplit(d.dest, d.source) && Exists(before.fs, d.source) && !HasKey(before.state, d.dest))
  {
    hide Copied, ResolvedBySplit, Components;
    var r, n := BackedUp(before, d), |before.state|;
    if r.state != before.state {
      assert r.state[..n] == before.state && r.state[n].key == ResolvedBySplit(d.dest, d.source);
      if i :| 0 <= i < n && before.state[i].key == key {
        assert r.state[i].key == key;
      }
      if i :| 0 <= i < |r.state| && r.state[i].key == key {
        assert i < n ==> before.state[i].key == key;
      }
    }
  }

  /** Which paths `backup_configs` tracks: those it found tracked, and those that some entry makes it track. */
  lemma {:induction false} TrackedIff(fs: FS, state: seq<Tracked>, files: seq<Data>, n: nat, key: string)
    requires n <= |files| && BackedUpTo(fs, state, files, n).error.None?
    ensures HasKey(BackedUpTo(fs, state, files, n).state, key) <==>
      HasKey(state, key) || exists i :: 0 <= i < n && TakesUp(fs, state, files, i, key)
  {
    hide BackedUp, HasKey, Exists, ResolvedBySplit;
    if n > 0 {
      TrackedIff(fs, state, files, n - 1, key);
      TakenUpStep(BackedUpTo(fs, state, files, n - 1), files[n - 1], key);
      assert TakesUp(fs, state, files, n - 1, key) <==>
        var before := BackedUpTo(fs, state, files, n - 1);
        && key == ResolvedBySplit(files[n - 1].dest, files[n - 1].source) && Exists(before.fs, files[n - 1].source)
        && !HasKey(before.state, files[n - 1].dest);
    }
    hide TakesUp;
  }

  /** An entry without a destination whose source exists when its turn comes. */
  ghost predicate ReachesEmpty(fs: FS, state: seq<Tracked>, files: seq<Data>, n: nat)
    requires n <= |files|
  {
    exists i :: 0 <= i < n && files[i].dest == "" && Exists(BackedUpTo(fs, state, files, i).fs, files[i].source)
  }

  /** The file system and the state with which `backup_configs` begins. */
  ghost function Begun(fs: FS, file: Option<seq<Tracked>>): Progress {
    var state := if file.Some? then file.value else [];
    RestoredUpTo(WithParents(fs, Components(STATE_FILE)), state, |state|)
  }

  /** The same for a whole start on `fs`. */
  ghost predicate TracksEmpty(fs: FS, file: Option<seq<Tracked>>, files: seq<Data>) {
    ReachesEmpty(Begun(fs, file).fs, Begun(fs, file).state, files, |files|)
  }

  lemma ResolvedEmpty(d: Data)
    ensures ResolvedBySplit(d.dest, d.source) == "" <==> d.dest == ""
  {
    hide Split;
  }

  lemma EmptyStep(before: Progress, d: Data)
    requires BackedUp(before, d).error.None?
    ensures HasKey(BackedUp(before, d).state, "") <==>
      HasKey(before.state, "") || (d.dest == "" && Exists(before.fs, d.source))
  {
    hide Copied, ResolvedBySplit, Components;
    ResolvedEmpty(d);
    var r, n := BackedUp(before, d), |before.state|;
    if r.state != before.state {
      assert r.state[..n] == before.state && r.state[n].key == ResolvedBySplit(d.dest, d.source);
      if i :| 0 <= i < n && before.state[i].key == "" {
        assert r.state[i].key == "";
      }
      if i :| 0 <= i < |r.state| && r.state[i].key == "" {
        assert i < n ==> before.state[i].key == "";
      }
    }
  }

  /** The empty path gets tracked exactly when such an entry is reached. */
  lemma {:induction false} EmptyTrackedIff(fs: FS, state: seq<Tracked>, files: seq<Data>, n: nat)
    requires n <= |files| && BackedUpTo(fs, state, files, n).error.None?
    ensures HasKey(BackedUpTo(fs, state, files, n).state, "") <==> HasKey(state, "") || ReachesEmpty(fs, state, files, n)
  {
    hide BackedUp, HasKey, Exists;
    if n > 0 {
      EmptyTrackedIff(fs, state, files, n - 1);
      EmptyStep(BackedUpTo(fs, state, files, n - 1), files[n - 1]);
    }
  }

  lemma EmptyHandled(fs: FS, file: Option<seq<Tracked>>, files: seq<Data>)
    requires Handled(fs, file, files).error.None?
    ensures HasKey(Handled(fs, file, files).state, "") <==>
      HasKey(if file.Some? then file.value else [], "") || TracksEmpty(fs, file, files)
  {
    hide BackedUpTo, RestoredUpTo, WithParents, FileAbove, ReachesEmpty, Components;
    var state := if file.Some? then file.value else [];
    var begun := Begun(fs, file);
    EmptyTrackedIff(begun.fs, begun.state, files, |files|);
    RestoredState(WithParents(fs, Components(STATE_FILE)), state, |state|);
    assert forall i :: 0 <= i < |state| ==> begun.state[i].key == state[i].key;
  }

  /**
   * The check after a start that worked complains if and only if a path tracked before this
   * start is no destination, or an entry has no destination and its source existed.
   */
  lemma DriftIff(history: seq<Boot>, b: Boot)
    requires LastWorked(history + [b])
    ensures Drifted(StateAfter(history + [b]), b.files) <==>
      Drifted(StateAfter(history), b.files) || TracksEmpty(b.fs, FileAfter(history), b.files)
  {
    hide Handled, Dests, ResolvedBySplit, ResolvedByJoin, Split, TracksEmpty;
    var h := history + [b];
    assert h[..|h| - 1] == history;
    var before, now := StateAfter(history), StateAfter(h);
    HandledState(b.fs, FileAfter(history), b.files);
    EmptyHandled(b.fs, FileAfter(history), b.files);
    KeysOnlyGrow(history, b);
    EmptyIsNoDest(b.files);
    if Drifted(now, b.files) {
      var i :| 0 <= i < |now| && now[i].key !in Dests(b.files);
      if i >= |before| {
        NewIsDest(now[i], b.files);
      } else {
        assert before[i].key == now[i].key;
      }
    }
    if Drifted(before, b.files) {
      var i :| 0 <= i < |before| && before[i].key !in Dests(b.files);
      assert now[i].key == before[i].key;
    }
  }

  /** The same for a first start. */
  lemma FreshDriftIff(fs: FS, files: seq<Data>)
    requires Handled(fs, None, files).error.None?
    ensures Drifted(Handled(fs, None, files).state, files) <==> TracksEmpty(fs, None, files)
  {
    hide Handled, Dests, TracksEmpty;
    var b := Boot(fs, files);
    assert [] + [b] == [b] && [b][..0] == [];
    Nothing();
    DriftIff([], b);
  }

  /** An entry without a destination lets `copy_config` go on only if it is optional and its source is missing. */
  lemma {:induction false} CopiedEntries(fs: FS, files: seq<Data>, n: nat, i: nat)
    requires i < n <= |files| && AllCopied(fs, files, n).1.None? && files[i].dest == ""
    ensures files[i].optional && !Exists(AllCopied(fs, files, i).0, files[i].source)
  {
    hide Overlay, Replace, FileAbove, Exists, Components;
    if i < n - 1 {
      CopiedEntries(fs, files, n - 1, i);
    }
  }

  /**
   * After a first start that got through to its end, the check of the same configuration
   * complains if and only if an entry has no destination and had a source when its turn
   * came; such an entry is optional, and its source was gone when it was to be copied.
   */
  lemma FirstStartDriftIff(fs: FS, files: seq<Data>)
    requires Handled(fs, None, files).error.None?
    requires AllCopied(Handled(fs, None, files).fs, files, |files|).1.None?
    ensures Drifted(Handled(fs, None, files).state, files) <==> TracksEmpty(fs, None, files)
    ensures forall i :: 0 <= i < |files| && files[i].dest == "" ==>
      files[i].optional && !Exists(AllCopied(Handled(fs, None, files).fs, files, i).0, files[i].source)
  {
    hide Handled, AllCopied, Drifted, TracksEmpty, Exists;
    FreshDriftIff(fs, files);
    var first := Handled(fs, None, files).fs;
    forall i | 0 <= i < |files| && files[i].dest == ""
      ensures files[i].optional && !Exists(AllCopied(first, files, i).0, files[i].source)
    {
      CopiedEntries(first, files, |files|, i);
    }
  }

  /** In particular it never complains if no optional entry lacks a destination. */
  lemma FreshNeverDrifts(fs: FS, files: seq<Data>)
    requires Handled(fs, None, files).error.None?
    requires AllCopied(Handled(fs, None, files).fs, files, |files|).1.None?
    requires forall d <- files :: d.dest == "" ==> !d.optional
    ensures !Drifted(Handled(fs, None, files).state, files)
  {
    hide Handled, AllCopied, Drifted, Exists, Begun, BackedUpTo;
    FirstStartDriftIff(fs, files);
    forall i | 0 <= i < |files| ensures files[i].dest != "" {
      assert files[i] in files;
    }
  }

  lemma Nothing()
    ensures StateAfter([]) == []
  {
  }

  /** A path tracked after some starts is tracked after all later ones. */
  lemma {:induction false} KeysPersist(history: seq<Boot>, k: nat, i: nat)
    requires k <= |history| && i < |StateAfter(history[..k])|
    ensures i < |StateAfter(history)| && StateAfter(history)[i].key == StateAfter(history[..k])[i].key
    decreases |history|
  {
    hide StateAfter;
    if k == |history| {
      assert history[..k] == history;
    } else {
      var n := |history| - 1;
      assert history[..n][..k] == history[..k] && history == history[..n] + [history[n]];
      KeysPersist(history[..n], k, i);
      KeysOnlyGrow(history[..n], history[n]);
    }
  }

  /**
   * Once a path is tracked, the check raises for every later configuration that does not list it, however many
   * starts lie in between and whatever they were.
   */
  lemma DroppedIsReported(history: seq<Boot>, k: nat, i: nat, files: seq<Data>)
    requires k <= |history| && i < |StateAfter(history[..k])|
    requires Unlisted(StateAfter(history[..k])[i].key, files)
    ensures Drifted(StateAfter(history), files)
  {
    hide StateAfter, Unlisted, Dests;
    KeysPersist(history, k, i);
    UnlistedIff(StateAfter(history)[i].key, files);
  }

  /** Every tracked path is a destination of the configuration of the start that added it. */
  lemma {:induction false} TrackedComesFrom(history: seq<Boot>, i: nat) returns (k: nat)
    requires i < |StateAfter(history)|
    ensures k < |history| && From(StateAfter(history)[i], history[k].files)
    ensures |StateAfter(history[..k])| <= i < |StateAfter(history[..k + 1])|
    decreases |history|
  {
    hide *;
    Nothing();
    var n := |history| - 1;
    assert history[..n] + [history[n]] == history;
    KeysOnlyGrow(history[..n], history[n]);
    if i < |StateAfter(history[..n])| {
      k := TrackedComesFrom(history[..n], i);
      assert history[..n][..k] == history[..k] && history[..n][..k + 1] == history[..k + 1];
      FromKey(StateAfter(history[..n])[i], StateAfter(history)[i], history[k].files);
    } else {
      k := n;
      NewComesFrom(history, i);
      assert history[..n + 1] == history;
    }
  }

  lemma FromKey(a: Tracked, b: Tracked, files: seq<Data>)
    requires From(a, files) && a.key == b.key
    ensures From(b, files)
  {
  }

  lemma NewComesFrom(history: seq<Boot>, i: nat)
    requires history != [] && |StateAfter(history[..|history| - 1])| <= i < |StateAfter(history)|
    ensures From(StateAfter(history)[i], history[|history| - 1].files)
  {
    hide Handled;
    var b := history[|history| - 1];
    if LastWorked(history) {
      HandledState(b.fs, FileAfter(history[..|history| - 1]), b.files);
    }
  }

  /** What the next start asks of the saved state holds after any starts on sound configurations. */
  lemma StateStaysSound(history: seq<Boot>)
    requires forall b <- history :: FilesSound(b.files)
    ensures StateSound(StateAfter(history))
  {
    hide StateAfter, Age, Mirrored, ResolvedBySplit, Split, Components;
    var state := StateAfter(history);
    forall e | e in state
      ensures if e.dest.Some? then Mirrored(e.source, e.dest.value) else e.key != "" ==> Components(e.key) != []
    {
      var i :| 0 <= i < |state| && state[i] == e;
      EntriesByAge(history, i);
      var k := TrackedComesFrom(history, i);
      assert history[k] in history;
      EntrySound(e, history[k].files);
    }
  }

  lemma EntrySound(e: Tracked, files: seq<Data>)
    requires From(e, files) && FilesSound(files)
    ensures e.key != "" ==> Components(e.key) != [] && Mirrored(e.key, BackupPath(e.key))
    ensures Mirrored(e.key, BackupPath(e.key)) ==> Mirrored(BackupPath(e.key), e.key)
  {
    var j :| 0 <= j < |files| && e.key == ResolvedBySplit(files[j].dest, files[j].source);
    assert files[j] in files;
  }
}
