/** The files and the text for the records in force, spelled out, and for records that the program ships. */
module Records {
  import opened Statuses
  import opened Repos
  import opened Installed

  // ---------------------------------------------------------------- files, line by line

  /** The file of a deb record. */
  ghost predicate DebFileMeans(r: Repo, lines: seq<string>) {
    && "url" in r && "component" in r && "suite" in r && "gpg_key" in r
    && lines == ["Uris: " + r["url"].text, "Components: " + r["component"].text, "Types: deb",
                 "Suites: " + r["suite"].text, "Signed-By: /etc/kolla/apt-keys/" + r["gpg_key"].text]
                + if "arch" in r then ["Architectures: " + r["arch"].text] else []
  }

  /** The lines that say where the packages of an rpm record come from: `urls` are the lines of its base URL. */
  ghost predicate OriginMeans(r: Repo, urls: seq<string>, lines: seq<string>) {
    if "baseurl" in r then
      && HasLines(r["baseurl"].text, urls) && |lines| == |urls|
      && forall j :: 0 <= j < |lines| ==> lines[j] == "baseurl=" + urls[j]
    else if "metalink" in r then lines == ["metalink=" + r["metalink"].text]
    else if "mirrorlist" in r then lines == ["mirrorlist=" + r["mirrorlist"].text]
    else lines == []
  }

  /** The lines for the keys of an rpm record: the first is named, the others are indented below it. */
  ghost predicate KeysMean(r: Repo, keys: seq<string>, lines: seq<string>) {
    && "gpgkey" in r && HasLines(r["gpgkey"].text, keys) && |lines| == |keys|
    && forall j :: 0 <= j < |lines| ==> lines[j] == (if j == 0 then "gpgkey=" else "       ") + keys[j]
  }

  /** The two optional switches of an rpm record. */
  function Switches(r: Repo): seq<string> {
    (if "gpgcheck" in r && r["gpgcheck"].truthy then ["gpgcheck=" + r["gpgcheck"].text] else [])
    + (if "repo_gpgcheck" in r && r["repo_gpgcheck"].truthy then ["repo_gpgcheck=" + r["repo_gpgcheck"].text] else [])
  }

  lemma {:induction false} UrlLinesAt(urls: seq<string>, j: nat)
    requires j < |urls|
    ensures UrlLines(urls)[j] == "baseurl=" + urls[j]
  {
    if j < |urls| - 1 {
      UrlLinesAt(urls[..|urls| - 1], j);
    }
  }

  lemma {:induction false} KeyLinesAt(keys: seq<string>, j: nat)
    requires j < |keys|
    ensures KeyLines(keys)[j] == (if j == 0 then "gpgkey=" else "       ") + keys[j]
  {
    if j < |keys| - 1 {
      KeyLinesAt(keys[..|keys| - 1], j);
    }
  }

  lemma OriginIs(r: Repo) returns (urls: seq<string>)
    ensures OriginMeans(r, urls, OriginLines(r))
  {
    urls := [];
    if "baseurl" in r {
      urls := SplitLines(r["baseurl"].text);
      SplitLinesAre(r["baseurl"].text);
      hide HasLines, SplitLines, UrlLines;
      forall j | 0 <= j < |urls| {
        UrlLinesAt(urls, j);
      }
    }
  }

  lemma KeysAre(r: Repo) returns (keys: seq<string>)
    requires "gpgkey" in r
    ensures KeysMean(r, keys, KeyLines(SplitLines(r["gpgkey"].text)))
  {
    keys := SplitLines(r["gpgkey"].text);
    SplitLinesAre(r["gpgkey"].text);
    hide HasLines, SplitLines, KeyLines;
    forall j | 0 <= j < |keys| {
      KeyLinesAt(keys, j);
    }
  }

  lemma RpmFileIs(r: Repo) returns (keys: seq<string>, keyLines: seq<string>, urls: seq<string>, originLines: seq<string>)
    requires "name" in r && "gpgkey" in r && !Truthy(r, "distro")
    ensures KeysMean(r, keys, keyLines) && OriginMeans(r, urls, originLines)
    ensures Described("rpm", r)
         == Some(["[" + r["name"].text + "]", "name=" + r["name"].text, "enabled=1"] + Switches(r) + keyLines + originLines)
  {
    keys := KeysAre(r);
    urls := OriginIs(r);
    keyLines, originLines := KeyLines(SplitLines(r["gpgkey"].text)), OriginLines(r);
    SwitchesAre(r);
    hide KeysMean, OriginMeans, KeyLines, OriginLines, SplitLines, OptionLine, Switches;
    Regrouped("[" + r["name"].text + "]", "name=" + r["name"].text, OptionLine(r, "gpgcheck"), OptionLine(r, "repo_gpgcheck"),
              keyLines, originLines);
  }

  lemma SwitchesAre(r: Repo)
    ensures Switches(r) == OptionLine(r, "gpgcheck") + OptionLine(r, "repo_gpgcheck")
  {
    assert "gpgcheck" + "=" == "gpgcheck=" && "repo_gpgcheck" + "=" == "repo_gpgcheck=";
  }

  lemma Regrouped(head: string, name: string, one: seq<string>, two: seq<string>, keys: seq<string>, origin: seq<string>)
    ensures [head] + ([name] + ["enabled=1"] + one + two + keys + origin)
         == [head, name, "enabled=1"] + (one + two) + keys + origin
  {
  }

  lemma DebFileIs(r: Repo)
    requires Described("deb", r).Some?
    ensures DebFileMeans(r, Described("deb", r).value)
  {
    assert "deb"[0] != "rpm"[0];
    var d := ["Components: " + r["component"].text, "Types: deb", "Suites: " + r["suite"].text,
              "Signed-By: /etc/kolla/apt-keys/" + r["gpg_key"].text];
    var more := if "arch" in r then ["Architectures: " + r["arch"].text] else [];
    assert ["Uris: " + r["url"].text] + (d + more) == ["Uris: " + r["url"].text] + d + more;
  }

  /** After the commands of enable mode the file of a deb repository is that of the record in force. */
  lemma InstalledDebFile(c: Context, names: seq<string>, m: Machine, i: nat, r: Repo)
    requires c.packageType == "deb" && Chunks(c, "enable", names).Some? && i < |names| && InForce(c, names[i], r)
    ensures var now := RunAll(m, Chunks(c, "enable", names).value);
      var file := "/etc/apt/sources.list.d/" + names[i] + ".sources";
      file in now.files && DebFileMeans(r, now.files[file])
  {
    hide *;
    RecordInForce(c, names[i], r);
    FilesAsDescribed(c, names, m, i);
    ListedIsWhole(c, names, i);
    DebFileIs(r);
    InFile(RunAll(m, Chunks(c, "enable", names).value), "deb", names[i]);
  }

  /** The same for rpm, if the repository is not one of the distribution. */
  lemma InstalledRpmFile(c: Context, names: seq<string>, m: Machine, i: nat, r: Repo)
    returns (keys: seq<string>, keyLines: seq<string>, urls: seq<string>, originLines: seq<string>)
    requires c.packageType == "rpm" && Chunks(c, "enable", names).Some? && i < |names| && InForce(c, names[i], r)
    requires !("distro" in r && r["distro"].truthy)
    ensures KeysMean(r, keys, keyLines) && OriginMeans(r, urls, originLines)
    ensures "name" in r
    ensures var now := RunAll(m, Chunks(c, "enable", names).value);
      var file := "/etc/yum.repos.d/" + names[i] + ".repo";
      && file in now.files
      && now.files[file]
         == ["[" + r["name"].text + "]", "name=" + r["name"].text, "enabled=1"] + Switches(r) + keyLines + originLines
  {
    hide *;
    RecordInForce(c, names[i], r);
    FilesAsDescribed(c, names, m, i);
    ListedIsWhole(c, names, i);
    NotDistro(r);
    keys, keyLines, urls, originLines := RpmFileIs(r);
    InFile(RunAll(m, Chunks(c, "enable", names).value), "rpm", names[i]);
  }

  lemma NotDistro(r: Repo)
    ensures Truthy(r, "distro") <==> "distro" in r && r["distro"].truthy
  {
  }

  lemma InFile(m: Machine, packageType: string, repo: string)
    requires packageType == "rpm" || packageType == "deb"
    ensures var file := if packageType == "rpm" then "/etc/yum.repos.d/" + repo + ".repo"
                        else "/etc/apt/sources.list.d/" + repo + ".sources";
      && FileOf(packageType, repo) == file
      && (Content(m, FileOf(packageType, repo)).Some? ==> file in m.files && m.files[file] == Content(m, FileOf(packageType, repo)).value)
  {
    assert "deb"[0] != "rpm"[0];
  }

  /** A listed repository has a record with all keys that are read. */
  lemma {:induction false} ListedIsWhole(c: Context, names: seq<string>, i: nat)
    requires Chunks(c, "enable", names).Some? && i < |names|
    ensures names[i] in RepoListOf(c)
    ensures var r := RepoListOf(c)[names[i]];
      && (c.packageType == "deb" ==> Described("deb", r).Some?)
      && (c.packageType == "rpm" && !Truthy(r, "distro") ==> "name" in r && "gpgkey" in r)
  {
    hide RepoListOf, RpmBody, DebBody, OriginLines, Appends, Truthy, RpmHead;
    assert "deb"[0] != "rpm"[0];
    if i < |names| - 1 {
      ListedIsWhole(c, names[..|names| - 1], i);
    }
  }

  // ---------------------------------------------------------------- the record of an architecture

  const RABBITMQ: Repo := map[
    "url" := Value("https://ppa1.rabbitmq.com/rabbitmq/rabbitmq-server/deb/debian", true),
    "suite" := Value("bookworm", true), "component" := Value("main", true), "gpg_key" := Value("rabbitmq.gpg", true)]

  /** Debian has two records for rabbitmq; on aarch64 the packages are those of another architecture. */
  const DEBIAN := Context("deb", "debian", "aarch64", map[
    "debian" := map["rabbitmq" := RABBITMQ],
    "debian-aarch64" := map["rabbitmq" := RABBITMQ["arch" := Value("amd64", true)]]])

  lemma RabbitKeys()
    ensures RABBITMQ.Keys == {"url", "suite", "component", "gpg_key"} && "arch" !in RABBITMQ
    ensures RABBITMQ["url"].text == "https://ppa1.rabbitmq.com/rabbitmq/rabbitmq-server/deb/debian"
    ensures RABBITMQ["suite"].text == "bookworm" && RABBITMQ["component"].text == "main"
    ensures RABBITMQ["gpg_key"].text == "rabbitmq.gpg"
  {
    assert |"url"| == 3 && |"suite"| == 5 && |"component"| == 9 && |"gpg_key"| == 7 && |"arch"| == 4;
  }

  lemma RabbitInForce()
    ensures InForce(DEBIAN, "rabbitmq", RABBITMQ["arch" := Value("amd64", true)])
  {
    hide RABBITMQ;
    assert "debian" + "-" + "aarch64" == "debian-aarch64";
    assert |"debian"| != |"debian-aarch64"|;
  }

  /** The architecture's record wins: whatever was there, the file names the architecture of the packages. */
  lemma ArchitectureWins(m: Machine)
    ensures Chunks(DEBIAN, "enable", ["rabbitmq"]).Some?
    ensures var now := RunAll(m, Chunks(DEBIAN, "enable", ["rabbitmq"]).value);
      Content(now, "/etc/apt/sources.list.d/rabbitmq.sources") == Some([
        "Uris: " + "https://ppa1.rabbitmq.com/rabbitmq/rabbitmq-server/deb/debian", "Components: main", "Types: deb",
        "Suites: bookworm", "Signed-By: /etc/kolla/apt-keys/rabbitmq.gpg", "Architectures: amd64"])
  {
    hide *;
    var r := RABBITMQ["arch" := Value("amd64", true)];
    RabbitKeys();
    RabbitInForce();
    RabbitIsWhole(r);
    InstalledDebFile(DEBIAN, ["rabbitmq"], m, 0, r);
    RabbitLines(r, RunAll(m, Chunks(DEBIAN, "enable", ["rabbitmq"]).value));
  }

  lemma RabbitIsWhole(r: Repo)
    requires InForce(DEBIAN, "rabbitmq", r) && {"url", "suite", "component", "gpg_key"} <= r.Keys
    ensures DEBIAN.packageType == "deb" && ["rabbitmq"][0] == "rabbitmq"
    ensures Chunks(DEBIAN, "enable", ["rabbitmq"]).Some?
  {
    hide RepoListOf, InForce, Chunk, Chunks, Broken;
    ChunksFail(DEBIAN, "enable", ["rabbitmq"]);
    RecordInForce(DEBIAN, "rabbitmq", r);
    LackingIff("deb", "enable", "rabbitmq", r);
    BrokenIff(DEBIAN, "enable", "rabbitmq");
    assert "deb"[0] != "rpm"[0];
  }

  lemma RabbitLines(r: Repo, m: Machine)
    requires r == RABBITMQ["arch" := Value("amd64", true)]
    requires RABBITMQ.Keys == {"url", "suite", "component", "gpg_key"}
    requires RABBITMQ["url"].text == "https://ppa1.rabbitmq.com/rabbitmq/rabbitmq-server/deb/debian"
    requires RABBITMQ["suite"].text == "bookworm" && RABBITMQ["component"].text == "main"
    requires RABBITMQ["gpg_key"].text == "rabbitmq.gpg"
    requires var file := "/etc/apt/sources.list.d/" + "rabbitmq" + ".sources"; file in m.files && DebFileMeans(r, m.files[file])
    ensures Content(m, "/etc/apt/sources.list.d/rabbitmq.sources") == Some([
        "Uris: " + "https://ppa1.rabbitmq.com/rabbitmq/rabbitmq-server/deb/debian", "Components: main", "Types: deb",
        "Suites: bookworm", "Signed-By: /etc/kolla/apt-keys/rabbitmq.gpg", "Architectures: amd64"])
  {
    hide RABBITMQ;
    assert |"arch"| == 4 && |"url"| == 3 && |"suite"| == 5 && |"component"| == 9 && |"gpg_key"| == 7;
    RabbitTexts();
    var u, t, k, a := "Uris: " + r["url"].text, "Suites: " + r["suite"].text, "Signed-By: /etc/kolla/apt-keys/" + r["gpg_key"].text,
      "Architectures: " + r["arch"].text;
    assert [u, "Components: " + r["component"].text, "Types: deb", t, k] + [a]
        == [u, "Components: " + r["component"].text, "Types: deb", t, k, a];
  }

  lemma RabbitTexts()
    ensures "/etc/apt/sources.list.d/" + "rabbitmq" + ".sources" == "/etc/apt/sources.list.d/rabbitmq.sources"
    ensures "Components: " + "main" == "Components: main" && "Suites: " + "bookworm" == "Suites: bookworm"
    ensures "Signed-By: /etc/kolla/apt-keys/" + "rabbitmq.gpg" == "Signed-By: /etc/kolla/apt-keys/rabbitmq.gpg"
    ensures "Architectures: " + "amd64" == "Architectures: amd64"
  {
  }

  // ---------------------------------------------------------------- the text of the commands

  /** The four kinds of commands, for one line of one file and one repository. */
  lemma CommandTexts()
    ensures Text(Write("/f", "l")) == "echo 'l' >/f" && Text(Append("/f", "l")) == "echo 'l' >>/f"
    ensures Text(Enable("crb")) == "dnf config-manager --enable crb || true"
    ensures Text(Disable("crb")) == "dnf config-manager --disable crb || true"
  {
    assert "echo '" + "l" + "' >" + "/f" == "echo 'l' >/f" && "echo '" + "l" + "' >>" + "/f" == "echo 'l' >>/f";
    assert "dnf config-manager --enable " + "crb" + " || true" == "dnf config-manager --enable crb || true";
    assert "dnf config-manager --disable " + "crb" + " || true" == "dnf config-manager --disable crb || true";
  }

  /** A chain of three commands stops at the first that fails. */
  lemma ChainText(a: Cmd, b: Cmd, c: Cmd)
    ensures ChunkText([a, b, c]) == Text(a) + " && " + Text(b) + " && " + Text(c)
  {
    hide Text;
    var texts := [Text(a), Text(b), Text(c)];
    assert Texts([a, b, c]) == texts;
    var two := [texts[0], texts[1]];
    assert texts[..2] == two && two[..1] == [texts[0]];
    assert Joined(two, SEPARATOR) == Joined([texts[0]], SEPARATOR) + SEPARATOR + texts[1];
    assert Joined(texts, SEPARATOR) == Joined(two, SEPARATOR) + SEPARATOR + texts[2];
  }
}
