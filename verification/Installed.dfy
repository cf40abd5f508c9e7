/** What running the commands of `handle_repos` does to the repository files. */
module Installed {
  import opened Statuses
  import opened Repos

  /** The repository files by path, and the repositories switched on or off in the package manager. */
  datatype Machine = Machine(files: map<string, seq<string>>, enabled: map<string, bool>)

  function Content(m: Machine, file: string): Option<seq<string>> {
    if file in m.files then Some(m.files[file]) else None
  }

  function LinesOf(m: Machine, file: string): seq<string> {
    if file in m.files then m.files[file] else []
  }

  function RunOne(m: Machine, c: Cmd): Machine {
    match c
    case Write(f, l) => m.(files := m.files[f := [l]])
    case Append(f, l) => m.(files := m.files[f := LinesOf(m, f) + [l]])
    case Enable(n) => m.(enabled := m.enabled[n := true])
    case Disable(n) => m.(enabled := m.enabled[n := false])
  }

  function Run(m: Machine, cmds: seq<Cmd>): Machine {
    if cmds == [] then m else RunOne(Run(m, cmds[..|cmds| - 1]), cmds[|cmds| - 1])
  }

  /** The chain of all chunks, run in order. */
  function RunAll(m: Machine, chunks: seq<seq<Cmd>>): Machine {
    if chunks == [] then m else Run(RunAll(m, chunks[..|chunks| - 1]), chunks[|chunks| - 1])
  }

  lemma RunSnoc(m: Machine, cmds: seq<Cmd>, c: Cmd)
    ensures Run(m, cmds + [c]) == RunOne(Run(m, cmds), c)
  {
    assert (cmds + [c])[..|cmds|] == cmds;
  }

  /** The file after a first command and some appended lines. */
  function Extended(m: Machine, file: string, lines: seq<string>): Machine {
    if lines == [] then m else m.(files := m.files[file := LinesOf(m, file) + lines])
  }

  lemma ExtendedSnoc(m: Machine, file: string, lines: seq<string>, line: string)
    ensures RunOne(Extended(m, file, lines), Append(file, line)) == Extended(m, file, lines + [line])
  {
    assert LinesOf(m, file) + (lines + [line]) == LinesOf(m, file) + lines + [line];
    if lines == [] {
      assert lines + [line] == [line];
    } else {
      assert m.files[file := LinesOf(m, file) + lines][file := LinesOf(m, file) + lines + [line]]
          == m.files[file := LinesOf(m, file) + lines + [line]];
    }
  }

  lemma {:induction false} RunAppends(m: Machine, head: Cmd, file: string, lines: seq<string>)
    ensures Run(m, [head] + Appends(file, lines)) == Extended(RunOne(m, head), file, lines)
  {
    hide RunOne, Run, Extended, Appends;
    if lines == [] {
      RunNone(m, file);
      RunSnoc(m, [], head);
      assert [head] + [] == [head] && [] + [head] == [head];
      ExtendedNone(RunOne(m, head), file);
    } else {
      var n := |lines| - 1;
      RunAppends(m, head, file, lines[..n]);
      assert lines == lines[..n] + [lines[n]];
      AppendsSnoc(file, lines[..n], lines[n]);
      assert [head] + (Appends(file, lines[..n]) + [Append(file, lines[n])]) == [head] + Appends(file, lines[..n]) + [Append(file, lines[n])];
      RunSnoc(m, [head] + Appends(file, lines[..n]), Append(file, lines[n]));
      ExtendedSnoc(RunOne(m, head), file, lines[..n], lines[n]);
    }
  }

  lemma RunNone(m: Machine, file: string)
    ensures Run(m, []) == m && Appends(file, []) == []
  {
  }

  lemma ExtendedNone(m: Machine, file: string)
    ensures Extended(m, file, []) == m
  {
  }

  // ---------------------------------------------------------------- the files that the records describe

  function FileOf(packageType: string, repo: string): string {
    if packageType == "rpm" then RpmFile(repo) else DebFile(repo)
  }

  /** The whole file of a repository; None for the distribution's own repositories, whose files it installs itself. */
  function Described(packageType: string, r: Repo): Option<seq<string>> {
    if packageType == "rpm" then
      (if !Truthy(r, "distro") && "name" in r && "gpgkey" in r then Some(["[" + r["name"].text + "]"] + RpmBody(r)) else None)
    else if DEB_KEYS <= r.Keys then Some(["Uris: " + r["url"].text] + DebBody(r))
    else None
  }

  /** One chunk of enable mode, whatever was there before. */
  lemma ChunkEffect(packageType: string, repo: string, r: Repo, m: Machine)
    requires packageType == "rpm" || packageType == "deb"
    requires Chunk(packageType, "enable", repo, r).Some?
    ensures var now := Run(m, Chunk(packageType, "enable", repo, r).value);
      var file := FileOf(packageType, repo);
      && (Described(packageType, r).Some? ==> now == m.(files := m.files[file := Described(packageType, r).value]))
      && (Described(packageType, r).None? ==>
            && "name" in r
            && now.enabled == m.enabled[r["name"].text := true]
            && now.files == if OriginLines(r) == [] then m.files else m.files[file := LinesOf(m, file) + OriginLines(r)])
  {
    hide RpmBody, DebBody, OriginLines;
    if packageType == "rpm" {
      if Truthy(r, "distro") {
        RunAppends(m, Enable(r["name"].text), RpmFile(repo), OriginLines(r));
      } else {
        RunAppends(m, RpmHead(repo, r), RpmFile(repo), RpmBody(r));
        Overwritten(m.files, RpmFile(repo), "[" + r["name"].text + "]", RpmBody(r));
      }
    } else {
      RunAppends(m, Write(DebFile(repo), "Uris: " + r["url"].text), DebFile(repo), DebBody(r));
      Overwritten(m.files, DebFile(repo), "Uris: " + r["url"].text, DebBody(r));
    }
  }

  lemma Overwritten(files: map<string, seq<string>>, f: string, l: string, ls: seq<string>)
    ensures files[f := [l]][f := [l] + ls] == files[f := [l] + ls]
    ensures ls == [] ==> files[f := [l]] == files[f := [l] + ls]
  {
    assert [l] + [] == [l];
  }

  /** Different repositories have different files. */
  lemma FileInjective(packageType: string, a: string, b: string)
    requires FileOf(packageType, a) == FileOf(packageType, b)
    ensures a == b
  {
    var dir := if packageType == "rpm" then "/etc/yum.repos.d/" else "/etc/apt/sources.list.d/";
    var suffix := if packageType == "rpm" then ".repo" else ".sources";
    var s, t := dir + a + suffix, dir + b + suffix;
    assert s == t;
    assert s[|dir|..|s| - |suffix|] == a && t[|dir|..|t| - |suffix|] == b;
  }

  // ---------------------------------------------------------------- the whole chain

  /**
   * After the commands of enable mode, from any files there were before: every listed
   * repository that is not the distribution's own has exactly the file its record describes.
   */
  lemma {:induction false} FilesAsDescribed(c: Context, names: seq<string>, m: Machine, i: nat)
    requires c.packageType == "rpm" || c.packageType == "deb"
    requires Chunks(c, "enable", names).Some? && i < |names|
    ensures names[i] in RepoListOf(c)
    ensures var d := Described(c.packageType, RepoListOf(c)[names[i]]);
      d.Some? ==> Content(RunAll(m, Chunks(c, "enable", names).value), FileOf(c.packageType, names[i])) == d
  {
    hide Chunk, Described, RepoListOf, FileOf, Run;
    var n := |names| - 1;
    var chunks := Chunks(c, "enable", names).value;
    assert chunks[..n] == Chunks(c, "enable", names[..n]).value;
    var before := RunAll(m, chunks[..n]);
    ChunkEffect(c.packageType, names[n], RepoListOf(c)[names[n]], before);
    if i < n {
      FilesAsDescribed(c, names[..n], m, i);
      if names[i] != names[n] && FileOf(c.packageType, names[i]) == FileOf(c.packageType, names[n]) {
        FileInjective(c.packageType, names[i], names[n]);
      }
    }
  }

  /** Every other file is left alone; so is the file of a repository of the distribution for which nothing is added. */
  lemma {:induction false} OtherFilesKept(c: Context, names: seq<string>, m: Machine, file: string)
    requires c.packageType == "rpm" || c.packageType == "deb"
    requires Chunks(c, "enable", names).Some?
    requires forall name <- names :: name in RepoListOf(c) && FileOf(c.packageType, name) == file ==>
      Described(c.packageType, RepoListOf(c)[name]).None? && OriginLines(RepoListOf(c)[name]) == []
    ensures Content(RunAll(m, Chunks(c, "enable", names).value), file) == Content(m, file)
  {
    hide Chunk, Described, RepoListOf, FileOf, Run, OriginLines;
    if names != [] {
      var n := |names| - 1;
      var chunks := Chunks(c, "enable", names).value;
      assert chunks[..n] == Chunks(c, "enable", names[..n]).value;
      OtherFilesKept(c, names[..n], m, file);
      ChunkEffect(c.packageType, names[n], RepoListOf(c)[names[n]], RunAll(m, chunks[..n]));
      assert names[n] in names;
    }
  }

  /** A repository of the distribution is switched on, and its added lines follow what its file had, if it is listed once. */
  lemma {:induction false} DistroEnabled(c: Context, names: seq<string>, m: Machine, i: nat)
    requires c.packageType == "rpm" && Chunks(c, "enable", names).Some? && i < |names|
    requires forall j :: 0 <= j < |names| && j != i ==> names[j] != names[i]
    ensures names[i] in RepoListOf(c)
    ensures var r, now := RepoListOf(c)[names[i]], RunAll(m, Chunks(c, "enable", names).value);
      Described("rpm", r).None? ==>
        && "name" in r && r["name"].text in now.enabled && now.enabled[r["name"].text]
        && LinesOf(now, FileOf("rpm", names[i])) == LinesOf(m, FileOf("rpm", names[i])) + OriginLines(r)
  {
    hide Chunk, Described, RepoListOf, FileOf, Run, OriginLines;
    var n := |names| - 1;
    var chunks := Chunks(c, "enable", names).value;
    assert chunks[..n] == Chunks(c, "enable", names[..n]).value;
    var before := RunAll(m, chunks[..n]);
    var r := RepoListOf(c)[names[n]];
    ChunkEffect("rpm", names[n], r, before);
    var file := FileOf("rpm", names[i]);
    if i < n {
      DistroEnabled(c, names[..n], m, i);
      if FileOf("rpm", names[n]) == file {
        FileInjective("rpm", names[n], names[i]);
      }
    } else {
      forall name | name in names[..n] && name in RepoListOf(c)
        ensures FileOf("rpm", name) != file
      {
        if FileOf("rpm", name) == file {
          FileInjective("rpm", name, names[n]);
        }
      }
      OtherFilesKept(c, names[..n], m, file);
      assert LinesOf(before, file) == LinesOf(m, file);
      assert LinesOf(m, file) + [] == LinesOf(m, file);
    }
  }

  // ---------------------------------------------------------------- the text

  /** The rendered chain of enable mode is the commands of all chunks, with exactly one separator between neighbours. */
  lemma {:induction false} ChainIsFlat(chunks: seq<seq<Cmd>>)
    requires forall i :: 0 <= i < |chunks| ==> chunks[i] != []
    ensures Joined(ChunkTexts(chunks), SEPARATOR) == ChunkText(Flat(chunks))
    ensures chunks != [] ==> Flat(chunks) != []
  {
    hide Text, SEPARATOR;
    if chunks != [] {
      var n := |chunks| - 1;
      ChainIsFlat(chunks[..n]);
      assert ChunkTexts(chunks)[..n] == ChunkTexts(chunks[..n]);
      if n == 0 {
        assert chunks[..0] == [] && Flat(chunks) == chunks[0];
      } else {
        JoinedConcat(Texts(Flat(chunks[..n])), Texts(chunks[n]), SEPARATOR);
        assert Texts(Flat(chunks[..n]) + chunks[n]) == Texts(Flat(chunks[..n])) + Texts(chunks[n]);
      }
    }
  }

  function Flat(chunks: seq<seq<Cmd>>): seq<Cmd> {
    if chunks == [] then [] else Flat(chunks[..|chunks| - 1]) + chunks[|chunks| - 1]
  }

  lemma {:induction false} JoinedConcat(a: seq<string>, b: seq<string>, separator: string)
    requires a != [] && b != []
    ensures Joined(a + b, separator) == Joined(a, separator) + separator + Joined(b, separator)
  {
    var n := |b| - 1;
    assert (a + b)[..|a| + n] == a + b[..n];
    if n == 0 {
      assert a + b[..0] == a;
    } else {
      JoinedConcat(a, b[..n], separator);
      Assoc(Joined(a, separator) + separator, Joined(b[..n], separator), separator + b[n]);
    }
  }

  lemma {:induction false} ChunksFilled(c: Context, names: seq<string>)
    requires Separated(c, "enable") && Chunks(c, "enable", names).Some?
    ensures var chunks := Chunks(c, "enable", names).value; forall i :: 0 <= i < |chunks| ==> chunks[i] != []
  {
    hide RepoListOf, RpmBody, DebBody, OriginLines;
    if names != [] {
      ChunksFilled(c, names[..|names| - 1]);
    }
  }

  lemma {:induction false} RunConcat(m: Machine, a: seq<Cmd>, b: seq<Cmd>)
    ensures Run(m, a + b) == Run(Run(m, a), b)
  {
    hide RunOne;
    if b == [] {
      assert a + b == a;
    } else {
      RunConcat(m, a, b[..|b| - 1]);
      assert (a + b)[..|a + b| - 1] == a + b[..|b| - 1];
    }
  }

  lemma {:induction false} RunFlat(m: Machine, chunks: seq<seq<Cmd>>)
    ensures Run(m, Flat(chunks)) == RunAll(m, chunks)
  {
    hide RunOne;
    if chunks != [] {
      var n := |chunks| - 1;
      RunFlat(m, chunks[..n]);
      RunConcat(m, Flat(chunks[..n]), chunks[n]);
    }
  }

  /** In enable mode the text is one RUN instruction: the chain of all commands, or nothing if no repository is asked for. */
  lemma EnableIsOneChain(c: Context, names: seq<string>)
    requires Separated(c, "enable") && Chunks(c, "enable", names).Some?
    ensures var chunks := Chunks(c, "enable", names).value;
      Rendered(c, "enable", chunks) == if names == [] then "" else "RUN " + ChunkText(Flat(chunks))
  {
    hide Text, SEPARATOR;
    var chunks := Chunks(c, "enable", names).value;
    ChunksFilled(c, names);
    ChainIsFlat(chunks);
    if names != [] {
      TextNotEmpty(Flat(chunks));
    }
  }

  lemma TextNotEmpty(cmds: seq<Cmd>)
    requires cmds != []
    ensures ChunkText(cmds) != ""
  {
    var ts := Texts(cmds);
    assert ts[|ts| - 1] != "";
    assert |ts| > 1 ==> Joined(ts, SEPARATOR) == Joined(ts[..|ts| - 1], SEPARATOR) + SEPARATOR + ts[|ts| - 1];
  }

  // ---------------------------------------------------------------- disabling

  lemma {:induction false} SeparatorsMissing(texts: seq<string>)
    requires texts != []
    ensures |Joined(texts, SEPARATOR)| == |Joined(texts, "")| + |SEPARATOR| * (|texts| - 1)
  {
    if |texts| > 1 {
      SeparatorsMissing(texts[..|texts| - 1]);
    }
  }

  lemma {:induction false} DisableSmall(c: Context, names: seq<string>)
    requires Chunks(c, "disable", names).Some?
    ensures var chunks := Chunks(c, "disable", names).value; forall i :: 0 <= i < |chunks| ==> |chunks[i]| <= 1
  {
    hide RepoListOf;
    if names != [] {
      DisableSmall(c, names[..|names| - 1]);
    }
  }

  lemma {:induction false} SmallTexts(chunks: seq<seq<Cmd>>)
    requires forall i :: 0 <= i < |chunks| ==> |chunks[i]| <= 1
    ensures Joined(ChunkTexts(chunks), "") == Joined(Texts(Flat(chunks)), "")
  {
    hide Text, ChunkText, Joined;
    if chunks == [] {
      assert ChunkTexts(chunks) == Texts(Flat(chunks));
    } else {
      var n := |chunks| - 1;
      SmallTexts(chunks[..n]);
      assert ChunkTexts(chunks)[..n] == ChunkTexts(chunks[..n]);
      JoinedLast(ChunkTexts(chunks));
      if chunks[n] == [] {
        EmptyChunk();
        assert Flat(chunks) == Flat(chunks[..n]);
        assert Joined(ChunkTexts(chunks[..n]), "") + "" == Joined(ChunkTexts(chunks[..n]), "");
      } else {
        var c := chunks[n][0];
        assert chunks[n] == [c];
        SingleChunk(c);
        assert Texts(Flat(chunks)) == Texts(Flat(chunks[..n])) + [Text(c)];
        JoinedLast(Texts(Flat(chunks)));
      }
    }
  }

  lemma SingleChunk(c: Cmd)
    ensures ChunkText([c]) == Text(c)
  {
    assert Texts([c]) == [Text(c)];
  }

  lemma JoinedLast(texts: seq<string>)
    requires texts != []
    ensures Joined(texts, "") == Joined(texts[..|texts| - 1], "") + texts[|texts| - 1]
  {
  }

  /** How many of the names are repositories of an rpm distribution: for these the code adds a command. */
  function DistroCount(c: Context, names: seq<string>): nat {
    if names == [] then 0
    else
      var name := names[|names| - 1];
      DistroCount(c, names[..|names| - 1])
      + if c.packageType == "rpm" && name in RepoListOf(c) && Truthy(RepoListOf(c)[name], "distro") then 1 else 0
  }

  lemma {:induction false} DisableCount(c: Context, names: seq<string>)
    requires Chunks(c, "disable", names).Some?
    ensures |Flat(Chunks(c, "disable", names).value)| == DistroCount(c, names)
  {
    hide RepoListOf, Truthy;
    if names != [] {
      var n := |names| - 1;
      DisableCount(c, names[..n]);
      var chunks := Chunks(c, "disable", names).value;
      assert chunks[..n] == Chunks(c, "disable", names[..n]).value;
    }
  }

  /** The instruction that chains all commands, or nothing if there is none. */
  function ChainOf(chunks: seq<seq<Cmd>>): string {
    if Flat(chunks) == [] then "" else "RUN " + ChunkText(Flat(chunks))
  }

  /** In disable mode the text is one RUN instruction with a correct chain if and only if at most one repository of the distribution is listed. */
  lemma DisableChainedIff(c: Context, names: seq<string>)
    requires Chunks(c, "disable", names).Some?
    ensures var chunks := Chunks(c, "disable", names).value;
      ChainOf(chunks) == Rendered(c, "disable", chunks) <==> DistroCount(c, names) <= 1
  {
    hide Text, Chunks, DistroCount;
    var chunks := Chunks(c, "disable", names).value;
    DisableCount(c, names);
    DisableSmall(c, names);
    SmallTexts(chunks);
    if Flat(chunks) != [] {
      SeparatorsMissing(Texts(Flat(chunks)));
      TextNotEmpty(Flat(chunks));
      TextNotBlank(Flat(chunks)[|Flat(chunks)| - 1]);
      PlainNotEmpty(Texts(Flat(chunks)));
    }
  }

  /** Something is rendered for every command, with or without separators. */
  lemma PlainNotEmpty(texts: seq<string>)
    requires texts != [] && texts[|texts| - 1] != ""
    ensures Joined(texts, "") != ""
  {
    if |texts| > 1 {
      JoinedLast(texts);
    }
  }

  const CRB: Repo := map["name" := Value("crb", true), "distro" := Value("true", true)]

  const EPEL: Repo := map["name" := Value("epel", true), "distro" := Value("true", true)]

  /** A context with two repositories of the distribution. */
  const ROCKY := Context("rpm", "rocky", "x86_64", map["rpm" := map["crb" := CRB, "epel" := EPEL]])

  lemma RockyRepos()
    ensures "crb" in RepoListOf(ROCKY) && RepoListOf(ROCKY)["crb"] == CRB
    ensures "epel" in RepoListOf(ROCKY) && RepoListOf(ROCKY)["epel"] == EPEL
    ensures Truthy(CRB, "distro") && Truthy(EPEL, "distro")
  {
    assert |"rpm"| != |"rocky"| && |"rocky" + "-" + "x86_64"| > |"rpm"|;
    assert |"crb"| != |"epel"| && |"name"| != |"distro"|;
    assert Section(ROCKY, "rocky") == map[] && Section(ROCKY, "rocky" + "-" + "x86_64") == map[];
  }

  lemma RockyChunk()
    ensures Chunk("rpm", "disable", "crb", CRB) == Some([Disable("crb")])
    ensures Chunk("rpm", "disable", "epel", EPEL) == Some([Disable("epel")])
  {
    assert |"name"| != |"distro"| && |"enable"| != |"disable"|;
  }

  /** One more name. */
  lemma ChunksSnoc(c: Context, mode: string, names: seq<string>, name: string)
    requires Chunks(c, mode, names).Some? && name in RepoListOf(c)
    requires Chunk(c.packageType, mode, name, RepoListOf(c)[name]).Some?
    ensures Chunks(c, mode, names + [name])
         == Some(Chunks(c, mode, names).value + [Chunk(c.packageType, mode, name, RepoListOf(c)[name]).value])
    ensures DistroCount(c, names + [name])
         == DistroCount(c, names) + if c.packageType == "rpm" && Truthy(RepoListOf(c)[name], "distro") then 1 else 0
  {
    hide Chunk, RepoListOf, Truthy;
    assert (names + [name])[..|names|] == names;
  }

  lemma RockyChunks()
    ensures Chunks(ROCKY, "disable", ["crb", "epel"]) == Some([[Disable("crb")], [Disable("epel")]])
    ensures DistroCount(ROCKY, ["crb", "epel"]) == 2
  {
    RockyRepos();
    RockyChunk();
    assert Chunks(ROCKY, "disable", []) == Some([]) && DistroCount(ROCKY, []) == 0;
    hide Chunk, RepoListOf, Truthy, Chunks, DistroCount, CRB, EPEL;
    assert [] + ["crb"] == ["crb"] && ["crb"] + ["epel"] == ["crb", "epel"];
    ChunksSnoc(ROCKY, "disable", [], "crb");
    var one: seq<seq<Cmd>> := [[Disable("crb")]];
    assert [] + one == one;
    assert Chunks(ROCKY, "disable", ["crb"]) == Some(one);
    ChunksSnoc(ROCKY, "disable", ["crb"], "epel");
    assert one + [[Disable("epel")]] == [[Disable("crb")], [Disable("epel")]];
  }

  /** Disabling two repositories of the distribution: the second command follows the first without a separator. */
  lemma TwoRepositoriesRunTogether()
    ensures var chunks := Chunks(ROCKY, "disable", ["crb", "epel"]);
      && chunks == Some([[Disable("crb")], [Disable("epel")]])
      && Rendered(ROCKY, "disable", chunks.value) == "RUN " + (Text(Disable("crb")) + "" + Text(Disable("epel")))
      && Rendered(ROCKY, "disable", chunks.value) != ChainOf(chunks.value)
  {
    hide *;
    RockyChunks();
    DisableChainedIff(ROCKY, ["crb", "epel"]);
    TwoTexts(ROCKY);
  }

  lemma TwoTexts(c: Context)
    ensures Rendered(c, "disable", [[Disable("crb")], [Disable("epel")]])
         == "RUN " + (Text(Disable("crb")) + "" + Text(Disable("epel")))
  {
    var chunks := [[Disable("crb")], [Disable("epel")]];
    SingleChunk(Disable("crb"));
    SingleChunk(Disable("epel"));
    hide ChunkText;
    var texts := [Text(Disable("crb")), Text(Disable("epel"))];
    assert ChunkTexts(chunks) == texts;
    hide Text;
    assert texts[..1] == [texts[0]];
    assert Joined(texts, "") == texts[0] + "" + texts[1];
    TextNotBlank(Disable("crb"));
    assert |texts[0] + "" + texts[1]| > 0;
  }

  lemma TextNotBlank(c: Cmd)
    ensures Text(c) != ""
  {
  }
}
