/** Path strings: the two ways in which the code resolves a destination, and the nodes that strings name. */
module Paths {
  import opened Statuses
  import opened FileSystems

  /** `s.split('/')`. */
  function Split(s: string): (r: seq<string>)
    ensures r != []
  {
    if s == "" then [""]
    else if s[0] == '/' then [""] + Split(s[1..])
    else
      var rest := Split(s[1..]);
      [[s[0]] + rest[0]] + rest[1..]
  }

  /** One past the last slash: `s.rfind('/') + 1`. */
  function AfterSlash(s: string): (i: nat)
    ensures i <= |s|
  {
    if s == "" then 0
    else if s[|s| - 1] == '/' then |s|
    else AfterSlash(s[..|s| - 1])
  }

  /** `os.path.basename`. */
  function Basename(s: string): string { s[AfterSlash(s)..] }

  predicate EndsWithSlash(s: string) { s != "" && s[|s| - 1] == '/' }

  /** `os.path.join` of two arguments. */
  function Join(a: string, b: string): string {
    if b != "" && b[0] == '/' then b
    else if a == "" || EndsWithSlash(a) then a + b
    else a + "/" + b
  }

  /** The names on a path; repeated and trailing slashes do not matter. */
  function Components(s: string): Path {
    if s == "" then [] else Named(Split(s))
  }

  function Named(pieces: seq<string>): Path {
    if pieces == [] then []
    else Name(pieces[0]) + Named(pieces[1..])
  }

  function Name(piece: string): Path { if piece == "" then [] else [piece] }

  // ---------------------------------------------------------------- the two resolvers

  /** The destination as `backup_configs` resolves it. */
  function ResolvedBySplit(dest: string, source: string): string {
    if EndsWithSlash(dest) then dest + Split(source)[|Split(source)| - 1] else dest
  }

  /** The destination as `copy` and `execute_config_check` resolve it. */
  function ResolvedByJoin(dest: string, source: string): string {
    if EndsWithSlash(dest) then Join(dest, Basename(source)) else dest
  }

  /** What a first character adds to the pieces. */
  function Cons(c: char, rest: seq<string>): (r: seq<string>)
    requires rest != []
    ensures r != []
  {
    if c == '/' then [""] + rest else [[c] + rest[0]] + rest[1..]
  }

  lemma SplitCons(c: char, s: string)
    ensures Split([c] + s) == Cons(c, Split(s))
  {
    assert ([c] + s)[1..] == s;
  }

  lemma ConsConcat(c: char, a: seq<string>, b: seq<string>)
    requires a != []
    ensures Cons(c, a + b) == Cons(c, a) + b
  {
    assert (a + b)[1..] == a[1..] + b;
  }

  lemma ConsLast(c: char, a: seq<string>, d: char)
    requires a != []
    ensures Cons(c, Last(a, d)) == Last(Cons(c, a), d)
  {
    hide Cons, Last;
    var n := |a| - 1;
    assert a == a[..n] + [a[n]];
    if c == '/' {
      SlashLast(a[..n], a[n], d);
    } else if n == 0 {
      assert a == [a[0]];
      SingleLast(c, a[0], d);
    } else {
      assert a[..n] == [a[0]] + a[1..n];
      CharLast(c, a[0], a[1..n], a[n], d);
    }
  }

  lemma SlashLast(init: seq<string>, z: string, d: char)
    ensures Cons('/', Last(init + [z], d)) == Last(Cons('/', init + [z]), d)
  {
    hide Last;
    LastOf(init, z, d);
    LastOf([""] + init, z, d);
    assert [""] + (init + [z]) == [""] + init + [z];
    assert [""] + (init + [z + [d]]) == [""] + init + [z + [d]];
  }

  lemma SingleLast(c: char, s: string, d: char)
    requires c != '/'
    ensures Cons(c, Last([s], d)) == Last(Cons(c, [s]), d)
  {
    assert [c] + (s + [d]) == [c] + s + [d];
    assert Last([s], d) == [s + [d]] && Cons(c, [s]) == [[c] + s];
  }

  lemma CharLast(c: char, h: string, mid: seq<string>, z: string, d: char)
    requires c != '/'
    ensures Cons(c, Last([h] + mid + [z], d)) == Last(Cons(c, [h] + mid + [z]), d)
  {
    hide Cons, Last;
    LastOf([h] + mid, z, d);
    LastOf([[c] + h] + mid, z, d);
    ConsOf(c, h, mid + [z]);
    ConsOf(c, h, mid + [z + [d]]);
    assert [h] + mid + [z] == [h] + (mid + [z]);
    assert [h] + mid + [z + [d]] == [h] + (mid + [z + [d]]);
    assert [[c] + h] + mid + [z] == [[c] + h] + (mid + [z]);
    assert [[c] + h] + mid + [z + [d]] == [[c] + h] + (mid + [z + [d]]);
  }

  lemma ConsOf(c: char, h: string, rest: seq<string>)
    requires c != '/'
    ensures Cons(c, [h] + rest) == [[c] + h] + rest
  {
    assert ([h] + rest)[1..] == rest;
  }

  lemma LastOf(init: seq<string>, z: string, d: char)
    ensures Last(init + [z], d) == init + [z + [d]]
  {
    assert (init + [z])[..|init|] == init;
  }

  /** `d` appended to the last piece. */
  function Last(a: seq<string>, d: char): (r: seq<string>)
    requires a != []
    ensures r != []
  {
    a[..|a| - 1] + [a[|a| - 1] + [d]]
  }

  lemma {:induction false} SplitSnoc(s: string, c: char)
    ensures Split(s + [c]) == if c == '/' then Split(s) + [""] else Last(Split(s), c)
  {
    hide Split, Cons, Last;
    if s == "" {
      SplitCons(c, "");
      assert s + [c] == [c] + "";
      SplitEmpty(c);
    } else {
      SplitSnoc(s[1..], c);
      assert s + [c] == [s[0]] + (s[1..] + [c]) && s == [s[0]] + s[1..];
      SplitCons(s[0], s[1..]);
      SplitCons(s[0], s[1..] + [c]);
      ConsConcat(s[0], Split(s[1..]), [""]);
      ConsLast(s[0], Split(s[1..]), c);
    }
  }

  lemma SplitEmpty(c: char)
    ensures Split("") == [""] && Cons(c, [""]) == (if c == '/' then ["", ""] else [[c]]) && Last([""], c) == [[c]]
  {
    assert "" + [c] == [c] && [c] + "" == [c];
    assert c != '/' ==> Cons(c, [""]) == [[c]];
  }

  /** The last piece of a split is what follows the last slash. */
  lemma {:induction false} LastPiece(s: string)
    ensures Split(s)[|Split(s)| - 1] == Basename(s)
  {
    if s != "" {
      var t, c := s[..|s| - 1], s[|s| - 1];
      assert s == t + [c];
      SplitSnoc(t, c);
      LastPiece(t);
      hide Split;
    }
  }

  lemma {:induction false} BasenameHasNoSlash(s: string)
    ensures '/' !in Basename(s)
  {
    if s != "" && s[|s| - 1] != '/' {
      BasenameHasNoSlash(s[..|s| - 1]);
      assert Basename(s) == Basename(s[..|s| - 1]) + [s[|s| - 1]];
    }
  }

  /** Both resolvers give the same path for every entry. */
  lemma ResolversAgree(dest: string, source: string)
    ensures ResolvedBySplit(dest, source) == ResolvedByJoin(dest, source)
  {
    LastPiece(source);
    BasenameHasNoSlash(source);
  }

  /** `os.path.dirname` is not the empty string. */
  predicate HasDirname(s: string) { '/' in s }

  lemma ResolvedHasDirname(dest: string, source: string)
    ensures HasDirname(ResolvedByJoin(dest, source)) <==> HasDirname(dest)
  {
    BasenameHasNoSlash(source);
    if EndsWithSlash(dest) {
      var r := ResolvedByJoin(dest, source);
      assert r == dest + Basename(source);
      assert r[|dest| - 1] == '/';
    }
  }

  // ---------------------------------------------------------------- concatenation

  lemma {:induction false} NamedConcat(a: seq<string>, b: seq<string>)
    ensures Named(a + b) == Named(a) + Named(b)
  {
    hide *;
    if a == [] {
      assert a + b == b;
      NamedNone();
    } else {
      NamedConcat(a[1..], b);
      assert (a + b)[1..] == a[1..] + b;
      NamedStep(a);
      NamedStep(a + b);
    }
  }

  lemma NamedNone()
    ensures Named([]) == []
  {
  }

  lemma NamedStep(a: seq<string>)
    requires a != []
    ensures Named(a) == Name(a[0]) + Named(a[1..])
  {
  }

  lemma {:induction false} SplitConcat(a: string, b: string)
    ensures Split(a + "/" + b) == Split(a) + Split(b)
  {
    hide Split, Cons;
    if a == "" {
      SplitEmpty('/');
      assert a + "/" + b == ['/'] + b;
      SplitCons('/', b);
      ConsSlash(Split(b));
    } else {
      SplitConcat(a[1..], b);
      assert a + "/" + b == [a[0]] + (a[1..] + "/" + b) && a == [a[0]] + a[1..];
      SplitCons(a[0], a[1..]);
      SplitCons(a[0], a[1..] + "/" + b);
      ConsConcat(a[0], Split(a[1..]), Split(b));
    }
  }

  lemma ConsSlash(rest: seq<string>)
    requires rest != []
    ensures Cons('/', rest) == [""] + rest
  {
  }

  /** An absolute path appended to another path names the nodes below it. */
  lemma ComponentsConcat(a: string, b: string)
    requires b != "" && b[0] == '/'
    ensures Components(a + b) == Components(a) + Components(b)
  {
    var c := b[1..];
    assert a + b == a + "/" + c;
    SplitConcat(a, c);
    NamedConcat(Split(a), Split(c));
    assert Split(b) == [""] + Split(c);
    assert Named(Split(b)) == Named(Split(c));
  }

  /** A non-empty string without a slash is one piece. */
  lemma {:induction false} NoSlash(s: string)
    requires '/' !in s
    ensures Split(s) == [s]
  {
    if s != "" {
      NoSlash(s[1..]);
      assert s == [s[0]] + s[1..];
    }
  }

  lemma OnePiece(name: string)
    requires '/' !in name && name != ""
    ensures Components("/" + name) == [name]
  {
    NoSlash(name);
    SplitConcat("", name);
    assert "" + "/" + name == "/" + name;
    assert Split("/" + name) == ["", name];
    NamedStep(["", name]);
    NamedStep([name]);
  }

  /** The names on a path: none on the empty one, one on a name, and those of both sides of a slash. */
  lemma ComponentsAre(a: string, b: string)
    ensures Components("") == []
    ensures a != "" && '/' !in a ==> Components(a) == [a]
    ensures Components(a + "/" + b) == Components(a) + Components(b)
  {
    hide Named;
    SplitConcat(a, b);
    NamedConcat(Split(a), Split(b));
    if a != "" && '/' !in a {
      NoSlash(a);
      NamedStep([a]);
      assert [a][1..] == [];
    }
    NamedNone();
    NamedStep([""]);
    assert [""][1..] == [];
  }

  /**
   * Both resolvers leave a destination alone unless it ends with a slash; then they append what
   * follows the last slash of the source, which begins at `k`.
   */
  lemma DestinationIs(dest: string, source: string) returns (k: nat)
    ensures k <= |source| && '/' !in source[k..] && (k > 0 ==> source[k - 1] == '/')
    ensures var to := if dest != "" && dest[|dest| - 1] == '/' then dest + source[k..] else dest;
      ResolvedByJoin(dest, source) == to && ResolvedBySplit(dest, source) == to
  {
    k := AfterSlash(source);
    AfterSlashIs(source);
    BasenameHasNoSlash(source);
    ResolversAgree(dest, source);
  }

  lemma {:induction false} AfterSlashIs(s: string)
    ensures AfterSlash(s) > 0 ==> s[AfterSlash(s) - 1] == '/'
  {
    if s != "" && s[|s| - 1] != '/' {
      AfterSlashIs(s[..|s| - 1]);
    }
  }
}
