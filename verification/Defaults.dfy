/** The saved defaults: backing them up, restoring or removing them on a restart, as functions on file system and state. */
module Defaults {
  import opened Statuses
  import opened FileSystems
  import opened Paths
  import opened Copying
  import opened Overlays
  import opened ConfigFiles
  import opened Permissions

  const KOLLA_DEFAULTS := "/etc/kolla/defaults"

  const STATE_FILE := "/etc/kolla/defaults/state"

  /** An entry of the state dictionary, `preserve_properties` being always set. */
  datatype Tracked = Tracked(key: string, source: string, dest: Option<string>)

  datatype Config = Config(files: seq<Data>, permissions: seq<Permission>, command: string)

  /** How far a loop over entries has got: the file system, the state, and the exception that ended it. */
  datatype Progress = Progress(fs: FS, state: seq<Tracked>, error: Option<Error>)

  predicate HasKey(state: seq<Tracked>, key: string) {
    exists i :: 0 <= i < |state| && state[i].key == key
  }

  /** The copy that a state entry stands for. */
  function CopyOf(source: string, dest: string): Data { Data(source, dest, Preserve, false, false) }

  function Swapped(e: Tracked): Tracked {
    if e.dest.None? then e else Tracked(e.key, e.dest.value, Some(e.source))
  }

  // ---------------------------------------------------------------- remove_or_restore_configs

  /** One entry of `remove_or_restore_configs`; the swap stays in the state even if the copy fails. */
  ghost function Restored(fs: FS, e: Tracked): (FS, Option<Error>) {
    if e.dest.None? then (if Exists(fs, e.key) then Removed(fs, Components(e.key)) else fs, None)
    else Copied(fs, CopyOf(e.dest.value, e.source))
  }

  ghost function RestoredUpTo(fs: FS, state: seq<Tracked>, n: nat): Progress
    requires n <= |state|
    ensures |RestoredUpTo(fs, state, n).state| == |state|
  {
    if n == 0 then Progress(fs, state, None)
    else
      var before := RestoredUpTo(fs, state, n - 1);
      if before.error.Some? then before
      else
        var r := Restored(before.fs, state[n - 1]);
        Progress(r.0, before.state[n - 1 := Swapped(state[n - 1])], r.1)
  }

  // ---------------------------------------------------------------- backup_configs

  function BackupPath(dst: string): string { KOLLA_DEFAULTS + dst }

  /** One entry of `backup_configs`. */
  ghost function BackedUp(before: Progress, d: Data): Progress {
    var dst := ResolvedBySplit(d.dest, d.source);
    if HasKey(before.state, d.dest) || !Exists(before.fs, d.source) || HasKey(before.state, dst) then before
    else if Exists(before.fs, dst) then
      var r := Copied(before.fs, CopyOf(dst, BackupPath(dst)));
      if r.1.Some? then Progress(r.0, before.state, r.1)
      else Progress(r.0, before.state + [Tracked(dst, dst, Some(BackupPath(dst)))], None)
    else Progress(before.fs, before.state + [Tracked(dst, dst, None)], None)
  }

  ghost function BackedUpTo(fs: FS, state: seq<Tracked>, files: seq<Data>, n: nat): Progress
    requires n <= |files|
  {
    if n == 0 then Progress(fs, state, None)
    else
      var before := BackedUpTo(fs, state, files, n - 1);
      if before.error.Some? then before else BackedUp(before, files[n - 1])
  }

  // ---------------------------------------------------------------- handle_defaults, copy_config

  /** `handle_defaults`; the state file is written only if nothing failed. */
  ghost function Handled(fs: FS, stateFile: Option<seq<Tracked>>, files: seq<Data>): Progress {
    var state := if stateFile.Some? then stateFile.value else [];
    var home := Components(STATE_FILE);
    if FileAbove(fs, home) then Progress(fs, state, Some(OSError))
    else
      var restored := RestoredUpTo(WithParents(fs, home), state, |state|);
      if restored.error.Some? then Progress(restored.fs, state, restored.error)
      else
        var done := BackedUpTo(restored.fs, restored.state, files, |files|);
        if done.error.Some? then Progress(done.fs, state, done.error) else done
  }

  ghost function AllCopied(fs: FS, files: seq<Data>, n: nat): (FS, Option<Error>)
    requires n <= |files|
  {
    if n == 0 then (fs, None)
    else
      var before := AllCopied(fs, files, n - 1);
      if before.1.Some? then before else Copied(before.0, files[n - 1])
  }

  // ---------------------------------------------------------------- what the code asks of its callers

  /** Copying between a path and its backup never copies a tree into itself. */
  predicate Mirrored(a: string, b: string) {
    Copyable(CopyOf(a, b)) && Copyable(CopyOf(b, a))
  }

  ghost predicate StateSound(state: seq<Tracked>) {
    forall e <- state ::
      if e.dest.Some? then Mirrored(e.source, e.dest.value) else e.key != "" ==> Components(e.key) != []
  }

  ghost predicate FilesSound(files: seq<Data>) {
    forall d <- files :: Copyable(d) && var dst := ResolvedBySplit(d.dest, d.source);
      dst != "" ==> Components(dst) != [] && Mirrored(dst, BackupPath(dst))
  }

  /** Taking one more step. */
  lemma RestoredNext(fs: FS, state: seq<Tracked>, n: nat)
    requires WF(fs) && StateSound(state) && n < |state| && RestoredUpTo(fs, state, n).error.None?
    ensures var before, e := RestoredUpTo(fs, state, n), state[n];
      && before.state[n] == e
      && RestoredUpTo(fs, state, n + 1)
         == Progress(Restored(before.fs, e).0, before.state[n := Swapped(e)], Restored(before.fs, e).1)
      && (e.dest.None? && Exists(before.fs, e.key) ==> Components(e.key) != [])
      && (e.dest.Some? ==> Copyable(CopyOf(e.dest.value, e.source)))
  {
    RestoredRest(fs, state, n);
    assert state[n] in state;
  }

  /** Entries not reached yet are as they were. */
  lemma {:induction false} RestoredRest(fs: FS, state: seq<Tracked>, n: nat)
    requires n <= |state|
    ensures forall i :: n <= i < |state| ==> RestoredUpTo(fs, state, n).state[i] == state[i]
  {
    if n > 0 {
      RestoredRest(fs, state, n - 1);
    }
  }

  lemma BackedUpNext(fs: FS, state: seq<Tracked>, files: seq<Data>, n: nat)
    requires FilesSound(files) && n < |files| && BackedUpTo(fs, state, files, n).error.None?
    ensures BackedUpTo(fs, state, files, n + 1) == BackedUp(BackedUpTo(fs, state, files, n), files[n])
    ensures var dst := ResolvedBySplit(files[n].dest, files[n].source);
      Copyable(files[n]) && (dst != "" ==> Copyable(CopyOf(dst, BackupPath(dst))))
  {
    assert files[n] in files;
  }

  // ---------------------------------------------------------------- the program

  /** A container as `set_configs` sees it: its file system, and the files of its own that the script reads and writes. */
  class Container {
    const fs: FileSystem
    var state: seq<Tracked>                       // the state dictionary while it is in memory
    var stateFile: Option<seq<Tracked>>
    var runCommand: Option<string>
    var configured: bool

    constructor (fs: FileSystem)
      ensures this.fs == fs && stateFile == None && runCommand == None && !configured && state == []
    {
      this.fs := fs;
      state, stateFile, runCommand, configured := [], None, None, false;
    }

    /** `remove_or_restore_configs`. */
    method RemoveOrRestoreConfigs() returns (error: Option<Error>)
      requires fs.Valid() && StateSound(state)
      modifies fs, this`state
      ensures fs.Valid() && Progress(fs.nodes, state, error) == RestoredUpTo(old(fs.nodes), old(state), |old(state)|)
    {
      hide Copied, Restored, RestoredUpTo, StateSound, Removed, Exists, Components;
      ghost var nodes, all := fs.nodes, state;
      RestoredStart(nodes, all);
      error := None;
      for n := 0 to |state|
        invariant fs.Valid() && |state| == |all| && error.None?
        invariant Progress(fs.nodes, state, None) == RestoredUpTo(nodes, all, n)
      {
        RestoredNext(nodes, all, n);
        RestoredCases(fs.nodes, all[n]);
        var e := state[n];
        if e.dest.None? {
          if Exists(fs.nodes, e.key) {
            fs.Remove(Components(e.key));
          }
        } else {
          state := state[n := Tracked(e.key, e.dest.value, Some(e.source))];
          var file := new ConfigFile(CopyOf(e.dest.value, e.source));
          error := file.Copy(fs);
          if error.Some? {
            RestoredStop(nodes, all, n + 1);
            return;
          }
        }
      }
    }

    /** `backup_configs`. */
    method BackupConfigs(files: seq<Data>) returns (error: Option<Error>)
      requires fs.Valid() && FilesSound(files)
      modifies fs, this`state
      ensures fs.Valid() && Progress(fs.nodes, state, error) == BackedUpTo(old(fs.nodes), old(state), files, |files|)
    {
      hide Copied, BackedUp, BackedUpTo, FilesSound, Exists, Components, HasKey, ResolvedBySplit, Split;
      ghost var nodes, first := fs.nodes, state;
      BackedUpStart(nodes, first, files);
      error := None;
      for n := 0 to |files|
        invariant fs.Valid() && error.None?
        invariant Progress(fs.nodes, state, None) == BackedUpTo(nodes, first, files, n)
      {
        var data := files[n];
        BackedUpNext(nodes, first, files, n);
        BackedUpCases(Progress(fs.nodes, state, None), data);
        if HasKey(state, data.dest) {
          continue;
        }
        var dst := ResolvedBySplit(data.dest, data.source);
        if Exists(fs.nodes, data.source) {
          if Exists(fs.nodes, dst) {
            if !HasKey(state, dst) {
              var file := new ConfigFile(CopyOf(dst, BackupPath(dst)));
              error := file.Copy(fs);
              if error.Some? {
                BackedUpStop(nodes, first, files, n + 1);
                return;
              }
              state := state + [Tracked(dst, dst, Some(BackupPath(dst)))];
            }
          } else if !HasKey(state, dst) {
            state := state + [Tracked(dst, dst, None)];
          }
        }
      }
    }

    /** `handle_defaults`. */
    method HandleDefaults(files: seq<Data>) returns (error: Option<Error>)
      requires fs.Valid() && FilesSound(files) && (stateFile.Some? ==> StateSound(stateFile.value))
      modifies fs, this`state, this`stateFile
      ensures fs.Valid()
      ensures var r := Handled(old(fs.nodes), old(stateFile), files);
        && (fs.nodes, error) == (r.fs, r.error)
        && stateFile == if error.None? then Some(r.state) else old(stateFile)
    {
      hide Copied, BackedUpTo, RestoredUpTo, WithParents, FileAbove, StateSound, FilesSound, Components;
      NothingIsSound();
      var maker := new ConfigFile(CopyOf("", STATE_FILE));
      var ok := maker.CreateParentDirs(fs, STATE_FILE);
      if !ok {
        return Some(OSError);
      }
      state := if stateFile.Some? then stateFile.value else [];
      error := RemoveOrRestoreConfigs();
      if error.Some? {
        return;
      }
      error := BackupConfigs(files);
      if error.Some? {
        return;
      }
      stateFile := Some(state);
    }

    /** `copy_config`. */
    method CopyConfig(config: Config) returns (error: Option<Error>)
      requires fs.Valid() && FilesSound(config.files)
      modifies fs, this`runCommand
      ensures fs.Valid() && (fs.nodes, error) == AllCopied(old(fs.nodes), config.files, |config.files|)
      ensures runCommand == if error.None? then Some(config.command) else old(runCommand)
    {
      hide *;
      ghost var nodes := fs.nodes;
      AllCopiedStart(nodes, config.files);
      error := None;
      for n := 0 to |config.files|
        invariant fs.Valid() && error.None? && runCommand == old(runCommand)
        invariant (fs.nodes, None) == AllCopied(nodes, config.files, n)
      {
        AllCopiedNext(nodes, config.files, n);
        var file := new ConfigFile(config.files[n]);
        error := file.Copy(fs);
        if error.Some? {
          AllCopiedStop(nodes, config.files, n + 1);
          return;
        }
      }
      runCommand := Some(config.command);
    }

    /** What both strategies do with a configuration. */
    method Apply(config: Config) returns (error: Option<Error>)
      requires fs.Valid() && FilesSound(config.files) && (stateFile.Some? ==> StateSound(stateFile.value))
      modifies fs, this`state, this`stateFile, this`runCommand
      ensures fs.Valid()
      ensures var r := Handled(old(fs.nodes), old(stateFile), config.files);
        var c := AllCopied(r.fs, config.files, |config.files|);
        && stateFile == (if r.error.None? then Some(r.state) else old(stateFile))
        && (r.error.Some? ==> (fs.nodes, error) == (r.fs, r.error))
        && (r.error.None? && c.1.Some? ==> (fs.nodes, error) == c)
        && (r.error.None? && c.1.None? ==>
              error == None && fs.nodes == AllPermitted(c.0, config.permissions, |config.permissions|))
        && runCommand == (if error.None? then Some(config.command) else old(runCommand))
    {
      hide Copied, Handled, AllCopied, StateSound, FilesSound, AllPermitted;
      error := HandleDefaults(config.files);
      if error.None? {
        error := CopyConfig(config);
      }
      if error.None? {
        HandlePermissions(fs, config.permissions);
      }
    }

    /** `execute_config_strategy`: with COPY_ONCE a second start changes nothing at all. */
    method ExecuteConfigStrategy(strategy: Option<string>, config: Config) returns (error: Option<Error>)
      requires fs.Valid() && FilesSound(config.files) && (stateFile.Some? ==> StateSound(stateFile.value))
      modifies fs, this`state, this`stateFile, this`runCommand, this`configured
      ensures fs.Valid()
      ensures strategy != Some("COPY_ALWAYS") && strategy != Some("COPY_ONCE") ==>
        error == Some(InvalidConfig) && fs.nodes == old(fs.nodes) && stateFile == old(stateFile) && configured == old(configured)
      ensures strategy == Some("COPY_ONCE") && old(configured) ==>
        error == Some(ImmutableConfig) && fs.nodes == old(fs.nodes) && stateFile == old(stateFile) && configured
      ensures strategy == Some("COPY_ALWAYS") || (strategy == Some("COPY_ONCE") && !old(configured)) ==>
        var r := Handled(old(fs.nodes), old(stateFile), config.files);
        var c := AllCopied(r.fs, config.files, |config.files|);
        && stateFile == (if r.error.None? then Some(r.state) else old(stateFile))
        && (r.error.Some? ==> (fs.nodes, error) == (r.fs, r.error))
        && (r.error.None? && c.1.Some? ==> (fs.nodes, error) == c)
        && (r.error.None? && c.1.None? ==>
              error == None && fs.nodes == AllPermitted(c.0, config.permissions, |config.permissions|))
        && (configured <==> old(configured) || (error.None? && strategy == Some("COPY_ONCE")))
    {
      hide Copied, Handled, AllCopied, StateSound, FilesSound, AllPermitted;
      if strategy == Some("COPY_ALWAYS") {
        error := Apply(config);
      } else if strategy == Some("COPY_ONCE") {
        if configured {
          return Some(ImmutableConfig);
        }
        error := Apply(config);
        if error.None? {
          configured := true;
        }
      } else {
        error := Some(InvalidConfig);
      }
    }

    /** The tracking part of `execute_config_check`: is every tracked path still a destination? */
    method CheckTracking(files: seq<Data>) returns (error: Option<Error>)
      ensures error == if Drifted(if stateFile.Some? then stateFile.value else [], files) then Some(StateMismatch) else None
      ensures error == None || error == Some(StateMismatch)
      ensures error == Some(StateMismatch) <==>
        stateFile.Some? && exists i :: 0 <= i < |stateFile.value| && Unlisted(stateFile.value[i].key, files)
    {
      hide Dests, ResolvedByJoin, Split, Unlisted;
      DestsNone();
      assert files[..0] == [];
      var tracked := if stateFile.Some? then stateFile.value else [];
      var currentDests: set<string> := {};
      for n := 0 to |files|
        invariant currentDests == Dests(files[..n])
      {
        DestsNext(files, n);
        if files[n].dest != "" {
          currentDests := currentDests + {ResolvedByJoin(files[n].dest, files[n].source)};
        }
      }
      assert files[..|files|] == files;
      forall i | 0 <= i < |tracked| {
        UnlistedIff(tracked[i].key, files);
      }
      for i := 0 to |tracked|
        invariant forall j :: 0 <= j < i ==> tracked[j].key in currentDests
      {
        if tracked[i].key !in currentDests {
          return Some(StateMismatch);
        }
      }
      return None;
    }
  }

  /** The destinations of a configuration, as `execute_config_check` resolves them. */
  function Dests(files: seq<Data>): set<string> {
    set d | d in files && d.dest != "" :: ResolvedByJoin(d.dest, d.source)
  }

  /** Some tracked path is not a destination of the configuration. */
  predicate Drifted(state: seq<Tracked>, files: seq<Data>) {
    exists i :: 0 <= i < |state| && state[i].key !in Dests(files)
  }

  /** The path differs from every destination: as written, or with the base name of the source appended behind a final slash. */
  ghost predicate Unlisted(key: string, files: seq<Data>) {
    forall i :: 0 <= i < |files| && files[i].dest != "" ==>
      var d := files[i];
      key != if d.dest[|d.dest| - 1] == '/' then d.dest + Basename(d.source) else d.dest
  }

  lemma UnlistedIff(key: string, files: seq<Data>)
    ensures Unlisted(key, files) <==> key !in Dests(files)
  {
    hide Basename;
    forall d: Data | d.dest != ""
      ensures ResolvedByJoin(d.dest, d.source) == if d.dest[|d.dest| - 1] == '/' then d.dest + Basename(d.source) else d.dest
    {
      BasenameHasNoSlash(d.source);
    }
    forall i | 0 <= i < |files| ensures files[i] in files {
    }
    hide ResolvedByJoin;
  }

  lemma RestoredStart(fs: FS, state: seq<Tracked>)
    ensures RestoredUpTo(fs, state, 0) == Progress(fs, state, None)
  {
  }

  lemma RestoredCases(fs: FS, e: Tracked)
    ensures e.dest.None? ==> Restored(fs, e) == (if Exists(fs, e.key) then Removed(fs, Components(e.key)) else fs, None)
    ensures e.dest.Some? ==> Restored(fs, e) == Copied(fs, CopyOf(e.dest.value, e.source))
    ensures Swapped(e) == if e.dest.None? then e else Tracked(e.key, e.dest.value, Some(e.source))
  {
  }

  lemma {:induction false} RestoredStop(fs: FS, state: seq<Tracked>, n: nat)
    requires n <= |state| && RestoredUpTo(fs, state, n).error.Some?
    ensures RestoredUpTo(fs, state, |state|) == RestoredUpTo(fs, state, n)
    decreases |state| - n
  {
    hide RestoredUpTo;
    if n < |state| {
      RestoredStuck(fs, state, n);
      RestoredStop(fs, state, n + 1);
    }
  }

  lemma RestoredStuck(fs: FS, state: seq<Tracked>, n: nat)
    requires n < |state| && RestoredUpTo(fs, state, n).error.Some?
    ensures RestoredUpTo(fs, state, n + 1) == RestoredUpTo(fs, state, n)
  {
  }

  lemma DestsNone()
    ensures Dests([]) == {}
  {
  }

  lemma DestsNext(files: seq<Data>, n: nat)
    requires n < |files|
    ensures Dests(files[..n + 1])
         == Dests(files[..n]) + if files[n].dest != "" then {ResolvedByJoin(files[n].dest, files[n].source)} else {}
  {
    assert files[..n + 1] == files[..n] + [files[n]];
    var d := files[n];
    assert d in files[..n + 1];
    hide ResolvedByJoin;
  }

  lemma BackedUpStart(fs: FS, state: seq<Tracked>, files: seq<Data>)
    ensures BackedUpTo(fs, state, files, 0) == Progress(fs, state, None)
  {
  }

  lemma BackedUpCases(before: Progress, d: Data)
    ensures var dst := ResolvedBySplit(d.dest, d.source);
      BackedUp(before, d) ==
        if HasKey(before.state, d.dest) || !Exists(before.fs, d.source) || HasKey(before.state, dst) then before
        else if Exists(before.fs, dst) then
          var r := Copied(before.fs, CopyOf(dst, BackupPath(dst)));
          if r.1.Some? then Progress(r.0, before.state, r.1)
          else Progress(r.0, before.state + [Tracked(dst, dst, Some(BackupPath(dst)))], None)
        else Progress(before.fs, before.state + [Tracked(dst, dst, None)], None)
    ensures Exists(before.fs, ResolvedBySplit(d.dest, d.source)) ==> ResolvedBySplit(d.dest, d.source) != ""
  {
  }

  lemma {:induction false} BackedUpStop(fs: FS, state: seq<Tracked>, files: seq<Data>, n: nat)
    requires n <= |files| && BackedUpTo(fs, state, files, n).error.Some?
    ensures BackedUpTo(fs, state, files, |files|) == BackedUpTo(fs, state, files, n)
    decreases |files| - n
  {
    hide BackedUpTo;
    if n < |files| {
      BackedUpStuck(fs, state, files, n);
      BackedUpStop(fs, state, files, n + 1);
    }
  }

  lemma BackedUpStuck(fs: FS, state: seq<Tracked>, files: seq<Data>, n: nat)
    requires n < |files| && BackedUpTo(fs, state, files, n).error.Some?
    ensures BackedUpTo(fs, state, files, n + 1) == BackedUpTo(fs, state, files, n)
  {
  }

  lemma AllCopiedStart(fs: FS, files: seq<Data>)
    ensures AllCopied(fs, files, 0) == (fs, None)
  {
  }

  lemma AllCopiedNext(fs: FS, files: seq<Data>, n: nat)
    requires FilesSound(files) && n < |files| && AllCopied(fs, files, n).1.None?
    ensures AllCopied(fs, files, n + 1) == Copied(AllCopied(fs, files, n).0, files[n]) && Copyable(files[n])
  {
    assert files[n] in files;
  }

  lemma {:induction false} AllCopiedStop(fs: FS, files: seq<Data>, n: nat)
    requires n <= |files| && AllCopied(fs, files, n).1.Some?
    ensures AllCopied(fs, files, |files|) == AllCopied(fs, files, n)
    decreases |files| - n
  {
    hide AllCopied;
    if n < |files| {
      AllCopiedStuck(fs, files, n);
      AllCopiedStop(fs, files, n + 1);
    }
  }

  lemma AllCopiedStuck(fs: FS, files: seq<Data>, n: nat)
    requires n < |files| && AllCopied(fs, files, n).1.Some?
    ensures AllCopied(fs, files, n + 1) == AllCopied(fs, files, n)
  {
  }

  /** Copying entry `i` works on the file system that the entries before it leave. */
  ghost predicate CopyWorks(fs: FS, files: seq<Data>, i: nat)
    requires i < |files|
  {
    Copied(AllCopied(fs, files, i).0, files[i]).1.None?
  }

  lemma AllCopiedStep(fs: FS, files: seq<Data>, n: nat)
    requires n < |files|
    ensures AllCopied(fs, files, n).1.Some? ==> AllCopied(fs, files, n + 1) == AllCopied(fs, files, n)
    ensures AllCopied(fs, files, n).1.None? ==> AllCopied(fs, files, n + 1) == Copied(AllCopied(fs, files, n).0, files[n])
  {
    hide Copied;
  }

  /** Copying the configuration stops at the first entry that fails, and what was copied before stays. */
  lemma {:induction false} CopyStops(fs: FS, files: seq<Data>, n: nat)
    requires n <= |files|
    ensures AllCopied(fs, files, n).1.None? <==> forall i :: 0 <= i < n ==> CopyWorks(fs, files, i)
    ensures forall i :: 0 <= i < n && !CopyWorks(fs, files, i) && AllCopied(fs, files, i).1.None? ==>
      AllCopied(fs, files, n) == Copied(AllCopied(fs, files, i).0, files[i])
  {
    hide *;
    if n == 0 {
      AllCopiedStart(fs, files);
    } else {
      CopyStops(fs, files, n - 1);
      AllCopiedStep(fs, files, n - 1);
      forall i: nat | i < n ensures CopyWorks(fs, files, i) <==> Copied(AllCopied(fs, files, i).0, files[i]).1.None? {
        CopyWorksIs(fs, files, i);
      }
    }
  }

  lemma CopyWorksIs(fs: FS, files: seq<Data>, i: nat)
    requires i < |files|
    ensures CopyWorks(fs, files, i) <==> Copied(AllCopied(fs, files, i).0, files[i]).1.None?
  {
    hide Copied, AllCopied;
  }

  lemma NothingIsSound()
    ensures StateSound([])
  {
  }
}
