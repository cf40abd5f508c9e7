/** `handle_repos`: repository records compiled to a chain of shell commands. */
module Repos {
  import opened Statuses

  /** A value of a repository record: its text, and whether Python takes it for true. */
  datatype Value = Value(text: string, truthy: bool)

  type Repo = map<string, Value>

  type RepoList = map<string, Repo>

  datatype Context = Context(
    packageType: string,
    distro: string,
    arch: string,
    repoData: map<string, RepoList>)

  /** One command of the chain. */
  datatype Cmd =
    | Write(file: string, line: string)     // echo with >
    | Append(file: string, line: string)    // echo with >>
    | Enable(name: string)
    | Disable(name: string)

  const SEPARATOR := " && "

  function Text(c: Cmd): string {
    match c
    case Write(f, l) => "echo '" + l + "' >" + f
    case Append(f, l) => "echo '" + l + "' >>" + f
    case Enable(n) => "dnf config-manager --enable " + n + " || true"
    case Disable(n) => "dnf config-manager --disable " + n + " || true"
  }

  function RpmFile(repo: string): string { "/etc/yum.repos.d/" + repo + ".repo" }

  function DebFile(repo: string): string { "/etc/apt/sources.list.d/" + repo + ".sources" }

  // ---------------------------------------------------------------- what a record describes

  predicate Truthy(r: Repo, key: string) { key in r && r[key].truthy }

  /** `str.splitlines` for lines that end with a newline. */
  function SplitLines(s: string): seq<string> {
    if s == "" then [] else Lines(s, "")
  }

  function Lines(s: string, line: string): seq<string> {
    if s == "" then (if line == "" then [] else [line])
    else if s[0] == '\n' then [line] + Lines(s[1..], "")
    else Lines(s[1..], line + [s[0]])
  }

  /** The text of lines that all end with a newline. */
  function Terminated(lines: seq<string>): string {
    if lines == [] then "" else lines[0] + "\n" + Terminated(lines[1..])
  }

  /** The text consists of these lines; only the last one may lack its newline, if it is not empty. */
  ghost predicate HasLines(text: string, lines: seq<string>) {
    && (forall i :: 0 <= i < |lines| ==> '\n' !in lines[i])
    && (|| text == Terminated(lines)
        || (lines != [] && lines[|lines| - 1] != "" && text + "\n" == Terminated(lines)))
  }

  /** One more line in front. */
  lemma HasLinesCons(line: string, text: string, rest: seq<string>)
    requires '\n' !in line && HasLines(text, rest)
    ensures HasLines(line + "\n" + text, [line] + rest)
  {
    var all := [line] + rest;
    assert all[1..] == rest;
    assert Terminated(all) == line + "\n" + Terminated(rest);
    assert line + "\n" + text + "\n" == line + "\n" + (text + "\n");
    assert rest != [] ==> all[|all| - 1] == rest[|rest| - 1];
    assert forall i :: 1 <= i < |all| ==> all[i] == rest[i - 1];
  }

  lemma OneLine(line: string)
    requires '\n' !in line
    ensures HasLines(line, if line == "" then [] else [line])
  {
    var all := [line];
    assert all[1..] == [] && Terminated(all[1..]) == "";
    assert Terminated(all) == line + "\n" + "" && line + "\n" + "" == line + "\n";
    assert all[|all| - 1] == line;
  }

  lemma {:induction false} LinesAre(s: string, line: string)
    requires '\n' !in line
    ensures HasLines(line + s, Lines(s, line))
  {
    hide HasLines;
    if s == "" {
      assert line + s == line;
      OneLine(line);
    } else if s[0] == '\n' {
      LinesAre(s[1..], "");
      assert "" + s[1..] == s[1..];
      HasLinesCons(line, s[1..], Lines(s[1..], ""));
      assert line + s == line + "\n" + s[1..];
    } else {
      LinesAre(s[1..], line + [s[0]]);
      assert line + [s[0]] + s[1..] == line + s;
    }
  }

  /** `splitlines` gives lines without newlines that, put together again, are the text. */
  lemma SplitLinesAre(s: string)
    ensures HasLines(s, SplitLines(s))
  {
    if s != "" {
      LinesAre(s, "");
      assert "" + s == s;
    }
  }

  function KeyLine(first: bool, key: string): string {
    if first then "gpgkey=" + key else "       " + key
  }

  function KeyLines(keys: seq<string>): (r: seq<string>)
    ensures |r| == |keys|
  {
    if keys == [] then []
    else KeyLines(keys[..|keys| - 1]) + [KeyLine(|keys| == 1, keys[|keys| - 1])]
  }

  function UrlLines(urls: seq<string>): (r: seq<string>)
    ensures |r| == |urls|
  {
    if urls == [] then [] else UrlLines(urls[..|urls| - 1]) + ["baseurl=" + urls[|urls| - 1]]
  }

  function OriginLines(r: Repo): seq<string> {
    if "baseurl" in r then UrlLines(SplitLines(r["baseurl"].text))
    else if "metalink" in r then ["metalink=" + r["metalink"].text]
    else if "mirrorlist" in r then ["mirrorlist=" + r["mirrorlist"].text]
    else []
  }

  function OptionLine(r: Repo, key: string): seq<string> {
    if Truthy(r, key) then [key + "=" + r[key].text] else []
  }

  /** The lines of a yum repository file, after its header. */
  function RpmBody(r: Repo): seq<string>
    requires "name" in r && "gpgkey" in r
  {
    RpmLines(r) + KeyLines(SplitLines(r["gpgkey"].text)) + OriginLines(r)
  }

  function RpmLines(r: Repo): seq<string>
    requires "name" in r
  {
    ["name=" + r["name"].text] + ["enabled=1"] + OptionLine(r, "gpgcheck") + OptionLine(r, "repo_gpgcheck")
  }

  function RpmHead(repo: string, r: Repo): Cmd
    requires "name" in r
  {
    Write(RpmFile(repo), "[" + r["name"].text + "]")
  }

  const DEB_KEYS := {"url", "component", "suite", "gpg_key"}

  function DebBody(r: Repo): seq<string>
    requires DEB_KEYS <= r.Keys
  {
    ["Components: " + r["component"].text, "Types: deb", "Suites: " + r["suite"].text,
     "Signed-By: /etc/kolla/apt-keys/" + r["gpg_key"].text]
    + (if "arch" in r then ["Architectures: " + r["arch"].text] else [])
  }

  function Appends(file: string, lines: seq<string>): (r: seq<Cmd>)
    ensures |r| == |lines|
  {
    if lines == [] then [] else Appends(file, lines[..|lines| - 1]) + [Append(file, lines[|lines| - 1])]
  }

  /** The commands for one repository; None where the code raises KeyError. */
  function RpmChunk(repo: string, r: Repo): Option<seq<Cmd>> {
    if Truthy(r, "distro") then
      if "name" in r then Some([Enable(r["name"].text)] + Appends(RpmFile(repo), OriginLines(r))) else None
    else if "name" in r && "gpgkey" in r then
      Some([RpmHead(repo, r)] + Appends(RpmFile(repo), RpmBody(r)))
    else None
  }

  function DebChunk(repo: string, r: Repo): Option<seq<Cmd>> {
    if DEB_KEYS <= r.Keys then
      Some([Write(DebFile(repo), "Uris: " + r["url"].text)] + Appends(DebFile(repo), DebBody(r)))
    else None
  }

  function Chunk(packageType: string, mode: string, repo: string, r: Repo): Option<seq<Cmd>> {
    if packageType == "rpm" then
      if mode == "enable" then RpmChunk(repo, r)
      else if mode == "disable" && Truthy(r, "distro") then
        (if "name" in r then Some([Disable(r["name"].text)]) else None)
      else Some([])
    else if packageType == "deb" && mode == "enable" then DebChunk(repo, r)
    else Some([])
  }

  /** The records in force: entries for the architecture win over the distribution's, and those over the package type's. */
  function RepoListOf(c: Context): RepoList {
    Section(c, c.packageType) + Section(c, c.distro) + Section(c, c.distro + "-" + c.arch)
  }

  function Section(c: Context, name: string): RepoList {
    if name in c.repoData then c.repoData[name] else map[]
  }

  /**
   * `r` is the record in force for `name`: that of the distribution on this architecture if there is one, else
   * that of the distribution, else that of the package type.
   */
  ghost predicate InForce(c: Context, name: string, r: Repo) {
    var arch := c.distro + "-" + c.arch;
    if arch in c.repoData && name in c.repoData[arch] then r == c.repoData[arch][name]
    else if c.distro in c.repoData && name in c.repoData[c.distro] then r == c.repoData[c.distro][name]
    else c.packageType in c.repoData && name in c.repoData[c.packageType] && r == c.repoData[c.packageType][name]
  }

  lemma RecordInForce(c: Context, name: string, r: Repo)
    ensures InForce(c, name, r) <==> name in RepoListOf(c) && RepoListOf(c)[name] == r
  {
    hide *;
    RepoListAt(c, name);
    InForceIs(c, name, r);
  }

  lemma RepoListAt(c: Context, name: string)
    ensures var t, d, a := Section(c, c.packageType), Section(c, c.distro), Section(c, c.distro + "-" + c.arch);
      && (name in RepoListOf(c) <==> name in a || name in d || name in t)
      && (name in RepoListOf(c) ==> RepoListOf(c)[name] == if name in a then a[name] else if name in d then d[name] else t[name])
  {
    hide Section;
  }

  lemma InForceIs(c: Context, name: string, r: Repo)
    ensures var t, d, a := Section(c, c.packageType), Section(c, c.distro), Section(c, c.distro + "-" + c.arch);
      InForce(c, name, r) <==>
        (if name in a then r == a[name] else if name in d then r == d[name] else name in t && r == t[name])
  {
  }

  /** No section that applies has a record for the name. */
  ghost predicate Unknown(c: Context, name: string) {
    forall section | section in {c.packageType, c.distro, c.distro + "-" + c.arch} ::
      section in c.repoData ==> name !in c.repoData[section]
  }

  lemma UnknownIff(c: Context, name: string)
    ensures Unknown(c, name) <==> name !in RepoListOf(c)
  {
    RepoListAt(c, name);
    hide RepoListOf;
    forall section | section in {c.packageType, c.distro, c.distro + "-" + c.arch}
      ensures name in Section(c, section) <==> section in c.repoData && name in c.repoData[section]
    {
    }
    hide Section;
  }

  /** A key that the code reads without a default is missing. */
  predicate Lacking(packageType: string, mode: string, r: Repo) {
    || (packageType == "rpm" && mode == "enable" && ("name" !in r || (!Truthy(r, "distro") && "gpgkey" !in r)))
    || (packageType == "rpm" && mode == "disable" && Truthy(r, "distro") && "name" !in r)
    || (packageType == "deb" && mode == "enable"
        && ("url" !in r || "component" !in r || "suite" !in r || "gpg_key" !in r))
  }

  lemma LackingIff(packageType: string, mode: string, repo: string, r: Repo)
    ensures Chunk(packageType, mode, repo, r).None? <==> Lacking(packageType, mode, r)
  {
    hide RpmBody, DebBody, OriginLines, Appends, RpmHead;
    assert |"enable"| != |"disable"| && "rpm"[0] != "deb"[0];
  }

  /** The name stops the loop with a KeyError: it has no record, or the record lacks a key. */
  ghost predicate Broken(c: Context, mode: string, name: string) {
    Unknown(c, name) || exists r :: InForce(c, name, r) && Lacking(c.packageType, mode, r)
  }

  lemma BrokenIff(c: Context, mode: string, name: string)
    ensures Broken(c, mode, name) <==>
      name !in RepoListOf(c) || Chunk(c.packageType, mode, name, RepoListOf(c)[name]).None?
  {
    hide RepoListOf, Chunk, Lacking, InForce, Unknown;
    UnknownIff(c, name);
    if name in RepoListOf(c) {
      RecordInForce(c, name, RepoListOf(c)[name]);
      LackingIff(c.packageType, mode, name, RepoListOf(c)[name]);
    }
    forall r {
      RecordInForce(c, name, r);
    }
  }

  /** The command lists of all names, or None where the code raises KeyError. */
  function Chunks(c: Context, mode: string, names: seq<string>): (r: Option<seq<seq<Cmd>>>)
    ensures r.Some? ==> |r.value| == |names|
  {
    if names == [] then Some([])
    else
      var before := Chunks(c, mode, names[..|names| - 1]);
      var name := names[|names| - 1];
      if before.None? || name !in RepoListOf(c) then None
      else
        var chunk := Chunk(c.packageType, mode, name, RepoListOf(c)[name]);
        if chunk.None? then None else Some(before.value + [chunk.value])
  }

  /** The code raises KeyError exactly if some name is broken. */
  lemma {:induction false} ChunksFail(c: Context, mode: string, names: seq<string>)
    ensures Chunks(c, mode, names).None? <==> exists i :: 0 <= i < |names| && Broken(c, mode, names[i])
  {
    hide RepoListOf, Chunk, Broken;
    if names != [] {
      var n := |names| - 1;
      ChunksFail(c, mode, names[..n]);
      BrokenIff(c, mode, names[n]);
      assert forall i :: 0 <= i < n ==> names[..n][i] == names[i];
    }
  }

  // ---------------------------------------------------------------- rendering

  function Joined(parts: seq<string>, separator: string): string {
    if parts == [] then ""
    else if |parts| == 1 then parts[0]
    else Joined(parts[..|parts| - 1], separator) + separator + parts[|parts| - 1]
  }

  function Texts(cmds: seq<Cmd>): (r: seq<string>)
    ensures |r| == |cmds|
  {
    seq(|cmds|, i requires 0 <= i < |cmds| => Text(cmds[i]))
  }

  function ChunkText(cmds: seq<Cmd>): string { Joined(Texts(cmds), SEPARATOR) }

  function ChunkTexts(chunks: seq<seq<Cmd>>): (r: seq<string>)
    ensures |r| == |chunks|
  {
    seq(|chunks|, i requires 0 <= i < |chunks| => ChunkText(chunks[i]))
  }

  /** Only in enable mode, for package types it knows, does the code put separators between repositories. */
  predicate Separated(c: Context, mode: string) {
    mode == "enable" && (c.packageType == "rpm" || c.packageType == "deb")
  }

  function Rendered(c: Context, mode: string, chunks: seq<seq<Cmd>>): string {
    var body := Joined(ChunkTexts(chunks), if Separated(c, mode) then SEPARATOR else "");
    if body == "" then "" else "RUN " + body
  }

  // ---------------------------------------------------------------- the templates

  function AptArch(arch: string, repo: string): string {
    " && echo 'Architectures: " + arch + "' >>/etc/apt/sources.list.d/" + repo + ".sources"
  }

  function AptRepo(url: string, component: string, suite: string, gpgKey: string, repo: string): string {
    "echo 'Uris: " + url + "' >/etc/apt/sources.list.d/" + repo + ".sources"
    + (" && echo 'Components: " + component + "' >>/etc/apt/sources.list.d/" + repo + ".sources")
    + (" && echo '" + "Types: deb" + "' >>/etc/apt/sources.list.d/" + repo + ".sources")
    + (" && echo 'Suites: " + suite + "' >>/etc/apt/sources.list.d/" + repo + ".sources")
    + (" && echo '" + "Signed-By: /etc/kolla/apt-keys/" + gpgKey + "' >>/etc/apt/sources.list.d/" + repo + ".sources")
  }

  function DnfBaseurl(url: string, repo: string): string {
    " && echo 'baseurl=" + url + "' >>/etc/yum.repos.d/" + repo + ".repo"
  }

  function DnfDisable(name: string): string { "dnf config-manager --disable " + name + " || true" }

  function DnfEnable(name: string): string { "dnf config-manager --enable " + name + " || true" }

  function DnfGpgcheck(gpgcheck: string, repo: string): string {
    " && echo 'gpgcheck=" + gpgcheck + "' >>/etc/yum.repos.d/" + repo + ".repo"
  }

  function DnfGpgkey(key: string, repo: string): string {
    " && echo 'gpgkey=" + key + "' >>/etc/yum.repos.d/" + repo + ".repo"
  }

  function DnfGpgkeyAdd(key: string, repo: string): string {
    " && echo '       " + key + "' >>/etc/yum.repos.d/" + repo + ".repo"
  }

  function DnfMetalink(metalink: string, repo: string): string {
    " && echo 'metalink=" + metalink + "' >>/etc/yum.repos.d/" + repo + ".repo"
  }

  function DnfMirrorlist(mirrorlist: string, repo: string): string {
    " && echo 'mirrorlist=" + mirrorlist + "' >>/etc/yum.repos.d/" + repo + ".repo"
  }

  function DnfRepo(name: string, repo: string): string {
    "echo '[" + name + "]' >/etc/yum.repos.d/" + repo + ".repo"
    + (" && echo 'name=" + name + "' >>/etc/yum.repos.d/" + repo + ".repo")
    + (" && echo '" + "enabled=1" + "' >>/etc/yum.repos.d/" + repo + ".repo")
  }

  function DnfRepoGpgcheck(gpgcheck: string, repo: string): string {
    " && echo 'repo_gpgcheck=" + gpgcheck + "' >>/etc/yum.repos.d/" + repo + ".repo"
  }

  /** An appending template, in pieces, is the separator and the text of one append command. */
  lemma Pieces(before: string, key: string, value: string, middle: string, dir: string, repo: string, suffix: string)
    requires before == SEPARATOR + "echo '" + key && middle == "' >>" + dir
    ensures before + value + middle + repo + suffix == SEPARATOR + Text(Append(dir + repo + suffix, key + value))
  {
  }

  lemma RpmPieces(before: string, key: string, value: string, repo: string)
    requires before == SEPARATOR + "echo '" + key
    ensures before + value + "' >>/etc/yum.repos.d/" + repo + ".repo" == SEPARATOR + Text(Append(RpmFile(repo), key + value))
  {
    assert "' >>/etc/yum.repos.d/" == "' >>" + "/etc/yum.repos.d/";
    Pieces(before, key, value, "' >>/etc/yum.repos.d/", "/etc/yum.repos.d/", repo, ".repo");
  }

  lemma DebPieces(before: string, key: string, value: string, repo: string)
    requires before == SEPARATOR + "echo '" + key
    ensures before + value + "' >>/etc/apt/sources.list.d/" + repo + ".sources"
         == SEPARATOR + Text(Append(DebFile(repo), key + value))
  {
    assert "' >>/etc/apt/sources.list.d/" == "' >>" + "/etc/apt/sources.list.d/";
    Pieces(before, key, value, "' >>/etc/apt/sources.list.d/", "/etc/apt/sources.list.d/", repo, ".sources");
  }

  // ---------------------------------------------------------------- growing a chunk

  /** `text` is the chain of `head` and of appending `lines`. */
  ghost predicate Chained(text: string, head: Cmd, file: string, lines: seq<string>) {
    text == ChunkText([head] + Appends(file, lines))
  }

  lemma JoinedSnoc(parts: seq<string>, separator: string, last: string)
    requires parts != []
    ensures Joined(parts + [last], separator) == Joined(parts, separator) + (separator + last)
  {
    assert (parts + [last])[..|parts|] == parts;
  }

  lemma ChainedStart(head: Cmd, file: string)
    ensures Chained(Text(head), head, file, [])
  {
    assert [head] + Appends(file, []) == [head];
    assert Texts([head]) == [Text(head)];
  }

  /** One more appended line. */
  lemma ChainedNext(text: string, head: Cmd, file: string, lines: seq<string>, line: string)
    requires Chained(text, head, file, lines)
    ensures Chained(text + (SEPARATOR + Text(Append(file, line))), head, file, lines + [line])
  {
    hide Text, Joined, SEPARATOR;
    var cmds := [head] + Appends(file, lines);
    AppendsSnoc(file, lines, line);
    assert [head] + Appends(file, lines + [line]) == cmds + [Append(file, line)];
    assert Texts(cmds + [Append(file, line)]) == Texts(cmds) + [Text(Append(file, line))];
    JoinedSnoc(Texts(cmds), SEPARATOR, Text(Append(file, line)));
  }

  lemma AppendsSnoc(file: string, lines: seq<string>, line: string)
    ensures Appends(file, lines + [line]) == Appends(file, lines) + [Append(file, line)]
  {
    assert (lines + [line])[..|lines|] == lines;
  }

  lemma Assoc(a: string, b: string, c: string)
    ensures a + (b + c) == a + b + c
  {
  }

  // ---------------------------------------------------------------- enabling

  lemma GpgcheckText(value: string, repo: string)
    ensures DnfGpgcheck(value, repo) == SEPARATOR + Text(Append(RpmFile(repo), "gpgcheck=" + value))
  {
    RpmPieces(" && echo 'gpgcheck=", "gpgcheck=", value, repo);
  }

  lemma RepoGpgcheckText(value: string, repo: string)
    ensures DnfRepoGpgcheck(value, repo) == SEPARATOR + Text(Append(RpmFile(repo), "repo_gpgcheck=" + value))
  {
    RpmPieces(" && echo 'repo_gpgcheck=", "repo_gpgcheck=", value, repo);
  }

  lemma HeadText(name: string, repo: string)
    ensures "echo '[" + name + "]' >/etc/yum.repos.d/" + repo + ".repo" == Text(Write(RpmFile(repo), "[" + name + "]"))
  {
    assert "]' >/etc/yum.repos.d/" == "]" + ("' >" + "/etc/yum.repos.d/");
    assert "echo '[" == "echo '" + "[";
    Regroup("echo '", "[", name, "]", "' >", "/etc/yum.repos.d/", repo, ".repo");
  }

  lemma NameText(name: string, repo: string)
    ensures " && echo 'name=" + name + "' >>/etc/yum.repos.d/" + repo + ".repo"
         == SEPARATOR + Text(Append(RpmFile(repo), "name=" + name))
  {
    RpmPieces(" && echo 'name=", "name=", name, repo);
  }

  lemma EnabledText(repo: string)
    ensures " && echo '" + "enabled=1" + "' >>/etc/yum.repos.d/" + repo + ".repo"
         == SEPARATOR + Text(Append(RpmFile(repo), "enabled=1"))
  {
    EchoPieces("", "enabled=1");
    RpmPieces(" && echo '" + "", "", "enabled=1", repo);
  }

  /** The text of an echo up to a key. */
  lemma EchoPieces(key: string, value: string)
    ensures " && echo '" + key == SEPARATOR + "echo '" + key && " && echo '" + "" == " && echo '" && "" + value == value
  {
  }

  lemma DnfRepoIs(name: string, repo: string)
    ensures DnfRepo(name, repo) == Text(Write(RpmFile(repo), "[" + name + "]"))
      + (SEPARATOR + Text(Append(RpmFile(repo), "name=" + name))) + (SEPARATOR + Text(Append(RpmFile(repo), "enabled=1")))
  {
    hide Text, RpmFile, SEPARATOR;
    HeadText(name, repo);
    NameText(name, repo);
    EnabledText(repo);
  }

  lemma DnfRepoText(name: string, repo: string)
    ensures Chained(DnfRepo(name, repo), Write(RpmFile(repo), "[" + name + "]"), RpmFile(repo), ["name=" + name] + ["enabled=1"])
  {
    hide *;
    var f, head := RpmFile(repo), Write(RpmFile(repo), "[" + name + "]");
    DnfRepoIs(name, repo);
    ChainedStart(head, f);
    ChainedNext(Text(head), head, f, [], "name=" + name);
    assert [] + ["name=" + name] == ["name=" + name];
    ChainedNext(Text(head) + (SEPARATOR + Text(Append(f, "name=" + name))), head, f, ["name=" + name], "enabled=1");
  }

  lemma Regroup(a: string, b: string, n: string, c: string, d: string, e: string, r: string, x: string)
    ensures a + b + n + (c + (d + e)) + r + x == a + (b + n + c) + d + (e + r + x)
  {
  }

  lemma OptionOf(r: Repo, key: string, lines: seq<string>)
    ensures lines + OptionLine(r, key) == if Truthy(r, key) then lines + [key + "=" + r[key].text] else lines
  {
  }

  lemma RpmLinesAre(repo: string, r: Repo)
    requires "name" in r
    ensures RpmLines(r) == ["name=" + r["name"].text] + ["enabled=1"] + OptionLine(r, "gpgcheck") + OptionLine(r, "repo_gpgcheck")
    ensures RpmHead(repo, r) == Write(RpmFile(repo), "[" + r["name"].text + "]")
    ensures Truthy(r, "gpgcheck") ==> "gpgcheck" in r
    ensures Truthy(r, "repo_gpgcheck") ==> "repo_gpgcheck" in r
    ensures "gpgcheck=" == "gpgcheck" + "=" && "repo_gpgcheck=" == "repo_gpgcheck" + "="
  {
  }

  /** What enabling writes before the keys and the origin of a repository that is not the distribution's. */
  method EnableHead(repo: string, r: Repo) returns (text: string)
    requires "name" in r
    ensures Chained(text, RpmHead(repo, r), RpmFile(repo), RpmLines(r))
  {
    hide *;
    RpmLinesAre(repo, r);
    text := DnfRepo(r["name"].text, repo);
    DnfRepoText(r["name"].text, repo);
    ghost var head, f, lines := RpmHead(repo, r), RpmFile(repo), ["name=" + r["name"].text] + ["enabled=1"];
    OptionOf(r, "gpgcheck", lines);
    if Truthy(r, "gpgcheck") {
      GpgcheckText(r["gpgcheck"].text, repo);
      ChainedNext(text, head, f, lines, "gpgcheck=" + r["gpgcheck"].text);
      text := text + DnfGpgcheck(r["gpgcheck"].text, repo);
    }
    lines := lines + OptionLine(r, "gpgcheck");
    OptionOf(r, "repo_gpgcheck", lines);
    if Truthy(r, "repo_gpgcheck") {
      RepoGpgcheckText(r["repo_gpgcheck"].text, repo);
      ChainedNext(text, head, f, lines, "repo_gpgcheck=" + r["repo_gpgcheck"].text);
      text := text + DnfRepoGpgcheck(r["repo_gpgcheck"].text, repo);
    }
  }

  /** The loop over the keys. */
  method EnableKeys(before: string, ghost head: Cmd, ghost lines: seq<string>, repo: string, keys: seq<string>)
    returns (text: string)
    requires Chained(before, head, RpmFile(repo), lines)
    ensures Chained(text, head, RpmFile(repo), lines + KeyLines(keys))
  {
    hide Chained, RpmFile, DnfGpgkey, DnfGpgkeyAdd, SEPARATOR, Text;
    text := before;
    assert lines + [] == lines;
    for i := 0 to |keys|
      invariant Chained(text, head, RpmFile(repo), lines + KeyLines(keys[..i]))
    {
      assert keys[..i + 1][..i] == keys[..i];
      ghost var line := KeyLine(i == 0, keys[i]);
      assert KeyLines(keys[..i + 1]) == KeyLines(keys[..i]) + [line];
      assert lines + KeyLines(keys[..i + 1]) == lines + KeyLines(keys[..i]) + [line];
      ChainedNext(text, head, RpmFile(repo), lines + KeyLines(keys[..i]), line);
      KeyText(i == 0, keys[i], repo);
      if i == 0 {
        text := text + DnfGpgkey(keys[i], repo);
      } else {
        text := text + DnfGpgkeyAdd(keys[i], repo);
      }
    }
    assert keys[..|keys|] == keys;
  }

  lemma KeyText(first: bool, key: string, repo: string)
    ensures (if first then DnfGpgkey(key, repo) else DnfGpgkeyAdd(key, repo))
         == SEPARATOR + Text(Append(RpmFile(repo), KeyLine(first, key)))
  {
    if first {
      RpmPieces(" && echo 'gpgkey=", "gpgkey=", key, repo);
    } else {
      RpmPieces(" && echo '       ", "       ", key, repo);
    }
  }

  /** The part of enabling that names where the packages come from. */
  method EnableOrigin(before: string, ghost head: Cmd, ghost lines: seq<string>, repo: string, r: Repo) returns (text: string)
    requires Chained(before, head, RpmFile(repo), lines)
    ensures Chained(text, head, RpmFile(repo), lines + OriginLines(r))
  {
    hide Chained, RpmFile, DnfBaseurl, DnfMetalink, DnfMirrorlist, SEPARATOR, Text;
    text := before;
    assert lines + [] == lines;
    if "baseurl" in r {
      var urls := SplitLines(r["baseurl"].text);
      for i := 0 to |urls|
        invariant Chained(text, head, RpmFile(repo), lines + UrlLines(urls[..i]))
      {
        assert urls[..i + 1][..i] == urls[..i];
        assert lines + UrlLines(urls[..i + 1]) == lines + UrlLines(urls[..i]) + ["baseurl=" + urls[i]];
        ChainedNext(text, head, RpmFile(repo), lines + UrlLines(urls[..i]), "baseurl=" + urls[i]);
        BaseurlText(urls[i], repo);
        text := text + DnfBaseurl(urls[i], repo);
      }
      assert urls[..|urls|] == urls;
    } else if "metalink" in r {
      ChainedNext(text, head, RpmFile(repo), lines, "metalink=" + r["metalink"].text);
      MetalinkText(r["metalink"].text, repo);
      text := text + DnfMetalink(r["metalink"].text, repo);
    } else if "mirrorlist" in r {
      ChainedNext(text, head, RpmFile(repo), lines, "mirrorlist=" + r["mirrorlist"].text);
      MirrorlistText(r["mirrorlist"].text, repo);
      text := text + DnfMirrorlist(r["mirrorlist"].text, repo);
    }
  }

  lemma BaseurlText(value: string, repo: string)
    ensures DnfBaseurl(value, repo) == SEPARATOR + Text(Append(RpmFile(repo), "baseurl=" + value))
  {
    RpmPieces(" && echo 'baseurl=", "baseurl=", value, repo);
  }

  lemma MetalinkText(value: string, repo: string)
    ensures DnfMetalink(value, repo) == SEPARATOR + Text(Append(RpmFile(repo), "metalink=" + value))
  {
    RpmPieces(" && echo 'metalink=", "metalink=", value, repo);
  }

  lemma MirrorlistText(value: string, repo: string)
    ensures DnfMirrorlist(value, repo) == SEPARATOR + Text(Append(RpmFile(repo), "mirrorlist=" + value))
  {
    RpmPieces(" && echo 'mirrorlist=", "mirrorlist=", value, repo);
  }

  /** Enabling one repository of an rpm distribution; no text where the code raises KeyError. */
  method EnableRpm(repo: string, r: Repo) returns (text: Option<string>)
    ensures text.Some? <==> RpmChunk(repo, r).Some?
    ensures text.Some? ==> text.value == ChunkText(RpmChunk(repo, r).value)
  {
    hide ChunkText, OriginLines, RpmLines, DnfEnable, Text;
    if !Truthy(r, "distro") {
      if "name" !in r || "gpgkey" !in r {
        return None;
      }
      var chain := EnableHead(repo, r);
      chain := EnableKeys(chain, RpmHead(repo, r), RpmLines(r), repo, SplitLines(r["gpgkey"].text));
      chain := EnableOrigin(chain, RpmHead(repo, r), RpmLines(r) + KeyLines(SplitLines(r["gpgkey"].text)), repo, r);
      return Some(chain);
    } else {
      if "name" !in r {
        return None;
      }
      var chain := DnfEnable(r["name"].text);
      EnableText(r["name"].text, repo);
      chain := EnableOrigin(chain, Enable(r["name"].text), [], repo, r);
      assert [] + OriginLines(r) == OriginLines(r);
      return Some(chain);
    }
  }

  lemma EnableText(name: string, repo: string)
    ensures Chained(DnfEnable(name), Enable(name), RpmFile(repo), [])
  {
    ChainedStart(Enable(name), RpmFile(repo));
  }

  lemma UrisText(url: string, repo: string)
    ensures "echo 'Uris: " + url + "' >/etc/apt/sources.list.d/" + repo + ".sources" == Text(Write(DebFile(repo), "Uris: " + url))
  {
    assert "echo 'Uris: " == "echo '" + "Uris: ";
    assert "' >/etc/apt/sources.list.d/" == "" + ("' >" + "/etc/apt/sources.list.d/");
    Regroup("echo '", "Uris: ", url, "", "' >", "/etc/apt/sources.list.d/", repo, ".sources");
    assert "Uris: " + url + "" == "Uris: " + url;
  }

  lemma ComponentsText(value: string, repo: string)
    ensures " && echo 'Components: " + value + "' >>/etc/apt/sources.list.d/" + repo + ".sources"
         == SEPARATOR + Text(Append(DebFile(repo), "Components: " + value))
  {
    DebPieces(" && echo 'Components: ", "Components: ", value, repo);
  }

  lemma TypesText(repo: string)
    ensures " && echo '" + "Types: deb" + "' >>/etc/apt/sources.list.d/" + repo + ".sources"
         == SEPARATOR + Text(Append(DebFile(repo), "Types: deb"))
  {
    EchoPieces("", "Types: deb");
    DebPieces(" && echo '" + "", "", "Types: deb", repo);
  }

  lemma SuitesText(value: string, repo: string)
    ensures " && echo 'Suites: " + value + "' >>/etc/apt/sources.list.d/" + repo + ".sources"
         == SEPARATOR + Text(Append(DebFile(repo), "Suites: " + value))
  {
    DebPieces(" && echo 'Suites: ", "Suites: ", value, repo);
  }

  lemma SignedByText(value: string, repo: string)
    ensures " && echo '" + "Signed-By: /etc/kolla/apt-keys/" + value + "' >>/etc/apt/sources.list.d/" + repo + ".sources"
         == SEPARATOR + Text(Append(DebFile(repo), "Signed-By: /etc/kolla/apt-keys/" + value))
  {
    EchoPieces("Signed-By: /etc/kolla/apt-keys/", "");
    DebPieces(" && echo '" + "Signed-By: /etc/kolla/apt-keys/", "Signed-By: /etc/kolla/apt-keys/", value, repo);
  }

  lemma ArchText(value: string, repo: string)
    ensures AptArch(value, repo) == SEPARATOR + Text(Append(DebFile(repo), "Architectures: " + value))
  {
    DebPieces(" && echo 'Architectures: ", "Architectures: ", value, repo);
  }

  lemma AptRepoIs(url: string, component: string, suite: string, gpgKey: string, repo: string)
    ensures AptRepo(url, component, suite, gpgKey, repo) ==
      Text(Write(DebFile(repo), "Uris: " + url))
      + (SEPARATOR + Text(Append(DebFile(repo), "Components: " + component)))
      + (SEPARATOR + Text(Append(DebFile(repo), "Types: deb")))
      + (SEPARATOR + Text(Append(DebFile(repo), "Suites: " + suite)))
      + (SEPARATOR + Text(Append(DebFile(repo), "Signed-By: /etc/kolla/apt-keys/" + gpgKey)))
  {
    hide Text, DebFile, SEPARATOR;
    UrisText(url, repo);
    ComponentsText(component, repo);
    TypesText(repo);
    SuitesText(suite, repo);
    SignedByText(gpgKey, repo);
  }

  lemma AptRepoText(url: string, component: string, suite: string, gpgKey: string, repo: string)
    ensures Chained(AptRepo(url, component, suite, gpgKey, repo), Write(DebFile(repo), "Uris: " + url), DebFile(repo),
      ["Components: " + component, "Types: deb", "Suites: " + suite, "Signed-By: /etc/kolla/apt-keys/" + gpgKey])
  {
    hide *;
    var f, head := DebFile(repo), Write(DebFile(repo), "Uris: " + url);
    var a, b, c, d := "Components: " + component, "Types: deb", "Suites: " + suite, "Signed-By: /etc/kolla/apt-keys/" + gpgKey;
    AptRepoIs(url, component, suite, gpgKey, repo);
    ChainedStart(head, f);
    var t0 := Text(head);
    var t1 := t0 + (SEPARATOR + Text(Append(f, a)));
    var t2 := t1 + (SEPARATOR + Text(Append(f, b)));
    var t3 := t2 + (SEPARATOR + Text(Append(f, c)));
    ChainedNext(t0, head, f, [], a);
    assert [] + [a] == [a];
    ChainedNext(t1, head, f, [a], b);
    assert [a] + [b] == [a, b];
    ChainedNext(t2, head, f, [a, b], c);
    assert [a, b] + [c] == [a, b, c];
    ChainedNext(t3, head, f, [a, b, c], d);
    assert [a, b, c] + [d] == [a, b, c, d];
  }

  /** Enabling one repository of a deb distribution. */
  method EnableDeb(repo: string, r: Repo) returns (text: Option<string>)
    ensures text.Some? <==> DebChunk(repo, r).Some?
    ensures text.Some? ==> text.value == ChunkText(DebChunk(repo, r).value)
  {
    hide ChunkText, AptRepo, AptArch, Text, Appends, DebFile;
    if "component" !in r || "gpg_key" !in r || "suite" !in r || "url" !in r {
      return None;
    }
    var url, component, suite, gpgKey := r["url"].text, r["component"].text, r["suite"].text, r["gpg_key"].text;
    var chain := AptRepo(url, component, suite, gpgKey, repo);
    AptRepoText(url, component, suite, gpgKey, repo);
    ghost var head := Write(DebFile(repo), "Uris: " + url);
    ghost var lines := ["Components: " + component, "Types: deb", "Suites: " + suite, "Signed-By: /etc/kolla/apt-keys/" + gpgKey];
    assert lines + [] == lines;
    if "arch" in r {
      ChainedNext(chain, head, DebFile(repo), lines, "Architectures: " + r["arch"].text);
      ArchText(r["arch"].text, repo);
      chain := chain + AptArch(r["arch"].text, repo);
    }
    return Some(chain);
  }

  // ---------------------------------------------------------------- handle_repos

  /** What the loop has written for the first texts of `total`: a separator follows each but the very last. */
  function Trailing(texts: seq<string>, separator: string, total: nat): string {
    if texts == [] then ""
    else
      var n := |texts|;
      Trailing(texts[..n - 1], separator, total) + texts[n - 1] + (if n != total then separator else "")
  }

  lemma TrailingNext(texts: seq<string>, separator: string, total: nat, text: string)
    ensures Trailing(texts + [text], separator, total)
         == Trailing(texts, separator, total) + text + (if |texts| + 1 != total then separator else "")
  {
    assert (texts + [text])[..|texts|] == texts;
  }

  /** Separators after all but the last text put exactly one between neighbours. */
  lemma {:induction false} TrailingIsJoined(texts: seq<string>, separator: string, total: nat)
    requires |texts| <= total
    ensures Trailing(texts, separator, total) == Joined(texts, separator) + (if 0 < |texts| < total then separator else "")
  {
    if texts != [] {
      TrailingIsJoined(texts[..|texts| - 1], separator, total);
    }
  }

  lemma TrailingAll(texts: seq<string>, separator: string)
    ensures Trailing(texts, separator, |texts|) == Joined(texts, separator)
  {
    TrailingIsJoined(texts, separator, |texts|);
  }

  /** One name of the loop: the text for its chunk, without the separator. */
  method HandleRepo(packageType: string, mode: string, repo: string, r: Repo) returns (text: Option<string>)
    ensures text.Some? <==> Chunk(packageType, mode, repo, r).Some?
    ensures text.Some? ==> text.value == ChunkText(Chunk(packageType, mode, repo, r).value)
  {
    hide RpmChunk, DebChunk, ChunkText, DnfDisable;
    EmptyChunk();
    if packageType == "rpm" {
      if mode == "enable" {
        text := EnableRpm(repo, r);
        return;
      } else if mode == "disable" && Truthy(r, "distro") {
        if "name" !in r {
          return None;
        }
        DisableText(r["name"].text);
        return Some(DnfDisable(r["name"].text));
      }
    } else if packageType == "deb" {
      if mode == "enable" {
        text := EnableDeb(repo, r);
        return;
      }
    }
    return Some("");
  }

  lemma EmptyChunk()
    ensures ChunkText([]) == ""
  {
  }

  lemma DisableText(name: string)
    ensures DnfDisable(name) == ChunkText([Disable(name)])
  {
    assert Texts([Disable(name)]) == [Text(Disable(name))];
  }

  /** How far the loop has got: the text so far belongs to the chunks of the names so far. */
  ghost predicate Handling(c: Context, names: seq<string>, mode: string, n: nat, commands: string) {
    && n <= |names| && Chunks(c, mode, names[..n]).Some?
    && commands == Trailing(ChunkTexts(Chunks(c, mode, names[..n]).value), SeparatorOf(c, mode), |names|)
  }

  function SeparatorOf(c: Context, mode: string): string { if Separated(c, mode) then SEPARATOR else "" }

  lemma HandlingNext(c: Context, names: seq<string>, mode: string, n: nat, commands: string)
    requires Handling(c, names, mode, n, commands) && n < |names|
    ensures names[n] !in RepoListOf(c) ==> Chunks(c, mode, names[..n + 1]).None?
    ensures names[n] in RepoListOf(c) ==>
      var chunk := Chunk(c.packageType, mode, names[n], RepoListOf(c)[names[n]]);
      && (chunk.None? ==> Chunks(c, mode, names[..n + 1]).None?)
      && (chunk.Some? ==> Handling(c, names, mode, n + 1,
            commands + ChunkText(chunk.value) + (if n + 1 != |names| then SeparatorOf(c, mode) else "")))
  {
    hide Chunk, ChunkText, RepoListOf, Trailing, SeparatorOf;
    assert names[..n + 1][..n] == names[..n];
    var before := Chunks(c, mode, names[..n]).value;
    if names[n] in RepoListOf(c) {
      var chunk := Chunk(c.packageType, mode, names[n], RepoListOf(c)[names[n]]);
      if chunk.Some? {
        assert ChunkTexts(before + [chunk.value]) == ChunkTexts(before) + [ChunkText(chunk.value)];
        TrailingNext(ChunkTexts(before), SeparatorOf(c, mode), |names|, ChunkText(chunk.value));
      }
    }
  }

  lemma HandlingStart(c: Context, names: seq<string>, mode: string)
    ensures Handling(c, names, mode, 0, "")
  {
  }

  lemma HandlingEnd(c: Context, names: seq<string>, mode: string, commands: string)
    requires Handling(c, names, mode, |names|, commands)
    ensures Chunks(c, mode, names).Some?
    ensures Rendered(c, mode, Chunks(c, mode, names).value) == if commands == "" then "" else "RUN " + commands
  {
    assert names[..|names|] == names;
    TrailingAll(ChunkTexts(Chunks(c, mode, names).value), SeparatorOf(c, mode));
  }

  lemma SeparatorIs(c: Context, mode: string, commands: string)
    ensures SeparatorOf(c, mode) == if (c.packageType == "rpm" || c.packageType == "deb") && mode == "enable" then SEPARATOR else ""
    ensures commands + "" == commands
  {
  }

  /** `handle_repos`. */
  method HandleRepos(c: Context, names: seq<string>, mode: string) returns (result: Option<string>)
    ensures result.Some? <==> Chunks(c, mode, names).Some?
    ensures result.Some? ==> result.value == Rendered(c, mode, Chunks(c, mode, names).value)
    ensures result.None? <==> exists i :: 0 <= i < |names| && Broken(c, mode, names[i])
  {
    hide *;
    ChunksFail(c, mode, names);
    var repoList := RepoListOf(c);
    var commands := "";
    HandlingStart(c, names, mode);
    for i := 0 to |names|
      invariant Handling(c, names, mode, i, commands)
    {
      HandlingNext(c, names, mode, i, commands);
      if names[i] !in repoList {
        Failed(c, mode, names, i + 1);
        return None;
      }
      var text := HandleRepo(c.packageType, mode, names[i], repoList[names[i]]);
      if text.None? {
        Failed(c, mode, names, i + 1);
        return None;
      }
      commands := commands + text.value;
      SeparatorIs(c, mode, commands);
      if (c.packageType == "rpm" || c.packageType == "deb") && mode == "enable" {
        if i != |names| - 1 {
          commands := commands + SEPARATOR;
        }
      }
    }
    HandlingEnd(c, names, mode, commands);
    if commands != "" {
      commands := "RUN " + commands;
    }
    return Some(commands);
  }

  lemma {:induction false} Failed(c: Context, mode: string, names: seq<string>, n: nat)
    requires n <= |names| && Chunks(c, mode, names[..n]).None?
    ensures Chunks(c, mode, names).None?
    decreases |names| - n
  {
    if n < |names| {
      assert names[..n + 1][..n] == names[..n];
      Failed(c, mode, names, n + 1);
    } else {
      assert names[..n] == names;
    }
  }
}
