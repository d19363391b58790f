/**
 * The two computations of the package description: the list of
 * requirements built from the lines of the requirements file (comments
 * dropped, GitHub sources turned into "name @ url" entries) and the package
 * data, the files under a package directory with one of the wanted suffixes,
 * relative to that directory.
 *
 * Reading the requirements file and walking the directory tree are I/O: the
 * lines read and the entries the walk yields are arguments.
 */
module Packaging {
  import opened Wrappers

  // ---------------------------------------------------------------- strings

  predicate StartsWith(s: string, p: string) {
    |p| <= |s| && s[..|p|] == p
  }

  predicate EndsWith(s: string, p: string) {
    |p| <= |s| && s[|s| - |p|..] == p
  }

  /** The characters `str.isspace` accepts, which `str.strip()` removes. */
  predicate IsSpace(c: char) {
    c == ' ' || c == '\t' || c == '\n' || c == '\r' || c == '\U{000B}' || c == '\U{000C}'
    || ('\U{001C}' <= c <= '\U{001F}') || c == '\U{0085}' || c == '\U{00A0}' || c == '\U{1680}'
    || ('\U{2000}' <= c <= '\U{200A}') || c == '\U{2028}' || c == '\U{2029}' || c == '\U{202F}'
    || c == '\U{205F}' || c == '\U{3000}'
  }

  /** `s` without its leading whitespace. */
  function LStrip(s: string): string {
    if s != [] && IsSpace(s[0]) then LStrip(s[1..]) else s
  }

  /** `s` without its trailing whitespace. */
  function RStrip(s: string): string {
    if s != [] && IsSpace(s[|s| - 1]) then RStrip(s[..|s| - 1]) else s
  }

  /** `str.strip()`. */
  function Strip(s: string): string {
    RStrip(LStrip(s))
  }

  /** Left stripping drops exactly the leading whitespace. */
  lemma {:induction false} LStripDrops(s: string)
    ensures var r := LStrip(s);
            && |r| <= |s| && r == s[|s| - |r|..]
            && (forall i :: 0 <= i < |s| - |r| ==> IsSpace(s[i]))
            && (r != [] ==> !IsSpace(r[0]))
  {
    if s != [] && IsSpace(s[0]) {
      LStripDrops(s[1..]);
    }
  }

  /** Right stripping drops exactly the trailing whitespace. */
  lemma {:induction false} RStripDrops(s: string)
    ensures var r := RStrip(s);
            && |r| <= |s| && r == s[..|r|]
            && (forall i :: |r| <= i < |s| ==> IsSpace(s[i]))
            && (r != [] ==> !IsSpace(r[|r| - 1]))
  {
    if s != [] && IsSpace(s[|s| - 1]) {
      RStripDrops(s[..|s| - 1]);
    }
  }

  /** The stripped line is the part of `s` between its leading and trailing
      whitespace, and it neither starts nor ends with whitespace. */
  lemma StripSlice(s: string) returns (lo: nat)
    ensures var r := Strip(s);
            && lo + |r| <= |s| && s[lo..lo + |r|] == r
            && (forall i :: 0 <= i < lo ==> IsSpace(s[i]))
            && (forall i :: lo + |r| <= i < |s| ==> IsSpace(s[i]))
            && (r != [] ==> !IsSpace(r[0]) && !IsSpace(r[|r| - 1]))
  {
    var l := LStrip(s);
    LStripDrops(s);
    var r := RStrip(l);
    RStripDrops(l);
    lo := |s| - |l|;
    assert s[lo..lo + |r|] == l[..|r|];
    forall i | lo + |r| <= i < |s| ensures IsSpace(s[i]) {
      assert s[i] == l[i - lo];
    }
    if r != [] {
      assert r[0] == l[0];
    }
  }

  /** A string that neither starts nor ends with whitespace is its own strip. */
  lemma StripTrimmed(s: string)
    requires s != [] ==> !IsSpace(s[0]) && !IsSpace(s[|s| - 1])
    ensures Strip(s) == s
  {
  }

  /** Stripping twice is stripping once. */
  lemma StripIdempotent(s: string)
    ensures Strip(Strip(s)) == Strip(s)
  {
    var lo := StripSlice(s);
    StripTrimmed(Strip(s));
  }

  // ---------------------------------------------------------------- GIT_PATTERN

  const GitPrefix: string := "git+https://github.com/"

  /** ".git" occurs in `s` at `i`. */
  predicate GitAt(s: string, i: int) {
    0 <= i && i + 4 <= |s| && s[i] == '.' && s[i + 1] == 'g' && s[i + 2] == 'i' && s[i + 3] == 't'
  }

  /** The first '/' of `s`, provided no newline comes before it (`.` in a
      pattern does not match a newline). */
  function FindSlash(s: string): (r: Option<nat>)
    ensures r.Some? ==> r.value < |s|
  {
    if s == [] then None
    else if s[0] == '/' then Some(0)
    else if s[0] == '\n' then None
    else match FindSlash(s[1..]) case None => None case Some(i) => Some(i + 1)
  }

  /** The first ".git" of `s`, provided no newline comes before it. */
  function FindGit(s: string): (r: Option<nat>)
    ensures r.Some? ==> r.value + 4 <= |s|
  {
    if |s| < 4 then None
    else if GitAt(s, 0) then Some(0)
    else if s[0] == '\n' then None
    else match FindGit(s[1..]) case None => None case Some(i) => Some(i + 1)
  }

  /** A '/' found by `FindSlash` is the first one, with no newline before it. */
  lemma {:induction false} FindSlashSome(s: string)
    requires FindSlash(s).Some?
    ensures var i := FindSlash(s).value;
            && s[i] == '/' && NoNewline(s[..i])
            && forall j :: 0 <= j < i ==> s[j] != '/'
  {
    if s[0] != '/' {
      FindSlashSome(s[1..]);
      assert s[..FindSlash(s).value] == [s[0]] + s[1..][..FindSlash(s[1..]).value];
    }
  }

  /** When `FindSlash` finds nothing, a newline comes before every '/'. */
  lemma {:induction false} FindSlashNone(s: string)
    requires FindSlash(s).None?
    ensures forall i :: 0 <= i < |s| && s[i] == '/' ==> !NoNewline(s[..i])
  {
    if s != [] && s[0] != '\n' {
      FindSlashNone(s[1..]);
      forall i | 0 <= i < |s| && s[i] == '/' ensures !NoNewline(s[..i]) {
        assert s[1..][i - 1] == '/';
        assert s[..i] == [s[0]] + s[1..][..i - 1];
      }
    }
  }

  /** A ".git" found by `FindGit` is the first one, with no newline before it. */
  lemma {:induction false} FindGitSome(s: string)
    requires FindGit(s).Some?
    ensures var k := FindGit(s).value;
            && GitAt(s, k) && NoNewline(s[..k])
            && forall j :: 0 <= j < k ==> !GitAt(s, j)
  {
    if !GitAt(s, 0) {
      FindGitSome(s[1..]);
      var k := FindGit(s[1..]).value;
      assert s[..k + 1] == [s[0]] + s[1..][..k];
      forall j | 1 <= j < k + 1 ensures !GitAt(s, j) {
        GitAtShift(s, j);
      }
      GitAtShift(s, k + 1);
    }
  }

  /** When `FindGit` finds nothing, a newline comes before every ".git". */
  lemma {:induction false} FindGitNone(s: string)
    requires FindGit(s).None?
    ensures forall i :: GitAt(s, i) ==> !NoNewline(s[..i])
  {
    if |s| >= 4 && s[0] != '\n' {
      FindGitNone(s[1..]);
      forall i | GitAt(s, i) ensures !NoNewline(s[..i]) {
        GitAtShift(s, i);
        assert s[..i] == [s[0]] + s[1..][..i - 1];
      }
    }
  }

  lemma GitAtShift(s: string, i: int)
    requires 1 <= i && s != []
    ensures GitAt(s, i) <==> GitAt(s[1..], i - 1)
  {
  }

  /** `GIT_PATTERN.match(s)` and its second group: the pattern is anchored at
      the start of `s` but not at its end, and both groups are lazy. */
  function GitMatch(s: string): (r: Option<string>)
    ensures r.Some? ==> StartsWith(s, GitPrefix) && |GitPrefix| + |r.value| + 5 <= |s|
  {
    if !StartsWith(s, GitPrefix) then None
    else
      var rest := s[|GitPrefix|..];
      match FindSlash(rest)
      case None => None
      case Some(i) =>
        var tail := rest[i + 1..];
        match FindGit(tail)
        case None => None
        case Some(k) => Some(tail[..k])
  }

  predicate NoNewline(s: string) {
    forall i :: 0 <= i < |s| ==> s[i] != '\n'
  }

  /** `repo` is the second group of a match of `s`: `s` is the prefix, an
      owner without '/', a '/', then `repo` followed by ".git", with no
      newline in owner or repo and no earlier ".git" after the '/'. */
  predicate MatchesWith(s: string, owner: string, repo: string) {
    && StartsWith(s, GitPrefix + owner + "/" + repo + ".git")
    && (forall j :: 0 <= j < |owner| ==> owner[j] != '/')
    && NoNewline(owner) && NoNewline(repo)
    && (forall j :: 0 <= j < |repo| ==> !GitAt(repo + ".git", j))
  }

  /** `s` begins with prefix, owner, '/', repo and ".git", read piece by piece. */
  predicate PiecewiseMatch(s: string, owner: string, repo: string) {
    && StartsWith(s, GitPrefix)
    && var rest := s[|GitPrefix|..];
    && |owner| < |rest| && rest[..|owner|] == owner && rest[|owner|] == '/'
    && StartsWith(rest[|owner| + 1..], repo + ".git")
  }

  lemma Piecewise(s: string, owner: string, repo: string)
    ensures StartsWith(s, GitPrefix + owner + "/" + repo + ".git") <==> PiecewiseMatch(s, owner, repo)
  {
    var whole := GitPrefix + owner + "/" + repo + ".git";
    var p, o := |GitPrefix|, |owner|;
    if StartsWith(s, whole) {
      assert s[..p] == whole[..p];
      var rest := s[p..];
      assert rest[..o] == whole[p..p + o];
      assert rest[o] == whole[p + o];
      assert rest[o + 1..][..|repo| + 4] == whole[p + o + 1..];
    }
    if PiecewiseMatch(s, owner, repo) {
      var rest := s[p..];
      forall x | 0 <= x < |whole| ensures s[x] == whole[x] {
        if x < p {
          assert s[x] == s[..p][x];
        } else if x < p + o {
          assert s[x] == rest[..o][x - p];
        } else if x > p + o {
          assert s[x] == rest[o + 1..][..|repo| + 4][x - p - o - 1];
        }
      }
      assert s[..|whole|] == whole;
    }
  }

  /** A successful match has that shape, with the matched group as `repo`. */
  lemma GitMatchSound(s: string) returns (owner: string)
    requires GitMatch(s).Some?
    ensures MatchesWith(s, owner, GitMatch(s).value)
  {
    var rest := s[|GitPrefix|..];
    FindSlashSome(rest);
    var i := FindSlash(rest).value;
    var tail := rest[i + 1..];
    FindGitSome(tail);
    var k := FindGit(tail).value;
    var repo := tail[..k];
    owner := rest[..i];
    assert tail[..k + 4] == repo + ".git";
    Piecewise(s, owner, repo);
    NoEarlierGit(tail, repo + ".git", k);
  }

  /** The first ".git" of `t` is the first one of `t[..k + 4]` too. */
  lemma NoEarlierGit(t: string, w: string, k: nat)
    requires k + 4 <= |t| && w == t[..k + 4] && forall j :: 0 <= j < k ==> !GitAt(t, j)
    ensures forall j :: 0 <= j < k ==> !GitAt(w, j)
  {
    forall j | 0 <= j < k ensures !GitAt(w, j) {
      assert GitAt(w, j) ==> GitAt(t, j);
    }
  }

  /** Every string of that shape matches, with `repo` as the group. */
  lemma GitMatchComplete(s: string, owner: string, repo: string)
    requires MatchesWith(s, owner, repo)
    ensures GitMatch(s) == Some(repo)
  {
    var rest := s[|GitPrefix|..];
    Piecewise(s, owner, repo);
    SlashAfterOwner(rest, owner);
    GitAfterRepo(rest[|owner| + 1..], repo);
  }

  /** The first '/' of `rest` is the one right after an owner without '/'. */
  lemma SlashAfterOwner(rest: string, owner: string)
    requires |owner| < |rest| && rest[..|owner|] == owner && rest[|owner|] == '/'
    requires (forall j :: 0 <= j < |owner| ==> owner[j] != '/') && NoNewline(owner)
    ensures FindSlash(rest) == Some(|owner|)
  {
    if FindSlash(rest).None? {
      FindSlashNone(rest);
      assert false;
    }
    FindSlashSome(rest);
    if FindSlash(rest).value < |owner| {
      assert false;
    }
  }

  /** The first ".git" of `tail` is the one right after `repo`. */
  lemma GitAfterRepo(tail: string, repo: string)
    requires StartsWith(tail, repo + ".git") && NoNewline(repo)
    requires forall j :: 0 <= j < |repo| ==> !GitAt(repo + ".git", j)
    ensures FindGit(tail) == Some(|repo|) && tail[..|repo|] == repo
  {
    var w := repo + ".git";
    assert tail[..|repo|] == repo;
    assert GitAt(tail, |repo|) by {
      assert w[|repo|..] == ".git";
    }
    if FindGit(tail).None? {
      FindGitNone(tail);
      assert false;
    }
    FindGitSome(tail);
    var k := FindGit(tail).value;
    if k < |repo| {
      assert w[k] == tail[k] && w[k + 1] == tail[k + 1] && w[k + 2] == tail[k + 2] && w[k + 3] == tail[k + 3];
      assert GitAt(w, k);
      assert false;
    }
  }

  // ---------------------------------------------------------------- requirements

  datatype SetupError = NameError(name: string)

  /** What one line read from the requirements file adds, given the
      `package_name` left by the earlier lines: nothing for a comment,
      "name @ line" for a GitHub source (the name taken from the line when
      the pattern matches, from the earlier lines otherwise), the stripped
      line itself for anything else. Also the `package_name` afterwards. */
  function LineEntry(line: string, name: Option<string>): (r: Result<(Option<string>, Option<string>), SetupError>)
    ensures IsComment(line) ==> r == Ok((None, name))
    ensures !IsComment(line) && !StartsWith(Strip(line), "git+") ==> r == Ok((Some(Strip(line)), name))
    ensures r.Ok? && !IsComment(line) && StartsWith(Strip(line), "git+") ==>
              r.value.1.Some? && r.value.0 == Some(r.value.1.value + " @ " + Strip(line))
  {
    var r := Strip(line);
    if StartsWith(r, "#") then Ok((None, name))
    else if StartsWith(r, "git+") then
      var n := if GitMatch(r).Some? then GitMatch(r) else name;
      if n.None? then Err(NameError("package_name"))
      else Ok((Some(n.value + " @ " + r), n))
    else Ok((Some(r), name))
  }

  /** `install_requires` and `package_name` after the lines `lines`. */
  function Requirements(lines: seq<string>): (r: Result<(seq<string>, Option<string>), SetupError>)
    ensures r.Ok? ==> |r.value.0| <= |lines|
  {
    if lines == [] then Ok(([], None))
    else
      match Requirements(lines[..|lines| - 1])
      case Err(e) => Err(e)
      case Ok((out, name)) =>
        match LineEntry(lines[|lines| - 1], name)
        case Err(e) => Err(e)
        case Ok((entry, n)) => Ok((out + (if entry.Some? then [entry.value] else []), n))
  }

  /** The loop over the lines of the requirements file. */
  method ReadRequirements(lines: seq<string>) returns (r: Result<seq<string>, SetupError>)
    ensures r.Ok? <==> Requirements(lines).Ok?
    ensures r.Ok? ==> r.value == Requirements(lines).value.0
  {
    var installRequires: seq<string> := [];
    var packageName: Option<string> := None;
    for i := 0 to |lines|
      invariant Requirements(lines[..i]) == Ok((installRequires, packageName))
    {
      assert lines[..i + 1][..i] == lines[..i];
      var line := Strip(lines[i]);
      if StartsWith(line, "#") {
        assert LineEntry(lines[i], packageName) == Ok((None, packageName));
        assert installRequires + [] == installRequires;
        continue;
      } else if StartsWith(line, "git+") {
        var m := GitMatch(line);
        if m.Some? {
          packageName := m;
        }
        if packageName.None? {
          RequirementsStopsAtError(lines, i + 1);
          return Err(NameError("package_name"));
        }
        installRequires := installRequires + [packageName.value + " @ " + line];
      } else {
        installRequires := installRequires + [line];
      }
    }
    assert lines[..|lines|] == lines;
    return Ok(installRequires);
  }

  /** Once a line raises, the later lines are never read. */
  lemma {:induction false} RequirementsStopsAtError(lines: seq<string>, i: nat)
    requires i <= |lines| && Requirements(lines[..i]).Err?
    ensures Requirements(lines) == Requirements(lines[..i])
    decreases |lines|
  {
    if i == |lines| {
      assert lines[..i] == lines;
    } else {
      var init := lines[..|lines| - 1];
      assert init[..i] == lines[..i];
      RequirementsStopsAtError(init, i);
    }
  }

  /** A GitHub-source line whose name cannot be read off the line. */
  predicate Unnamed(line: string) {
    StartsWith(Strip(line), "git+") && GitMatch(Strip(line)).None?
  }

  /** The `package_name` the lines leave: the second group of the last
      matching GitHub-source line. */
  function LastName(lines: seq<string>): Option<string> {
    if lines == [] then None
    else
      var r := Strip(lines[|lines| - 1]);
      if !StartsWith(r, "#") && StartsWith(r, "git+") && GitMatch(r).Some? then GitMatch(r)
      else LastName(lines[..|lines| - 1])
  }

  /** The loop raises NameError exactly when some GitHub-source line without
      a readable name comes before any line that names a package; otherwise
      `package_name` ends as the last name read. */
  lemma {:induction false} RequirementsNameError(lines: seq<string>)
    ensures Requirements(lines).Err? <==>
              exists j :: 0 <= j < |lines| && Unnamed(lines[j]) && LastName(lines[..j]).None?
    ensures Requirements(lines).Ok? ==> Requirements(lines).value.1 == LastName(lines)
  {
    if lines != [] {
      var init := lines[..|lines| - 1];
      var last := lines[|lines| - 1];
      RequirementsNameError(init);
      assert lines[..|init|] == init;
      if Requirements(init).Err? {
        var j :| 0 <= j < |init| && Unnamed(init[j]) && LastName(init[..j]).None?;
        assert init[j] == lines[j] && init[..j] == lines[..j];
      } else {
        var name := Requirements(init).value.1;
        LineEntryName(last, name);
        assert LastName(lines) == if LastName([last]).Some? then LastName([last]) else LastName(init);
        if LineEntry(last, name).Err? {
          assert Unnamed(lines[|init|]) && LastName(lines[..|init|]).None?;
        } else {
          assert Requirements(lines).Ok?;
          forall j | 0 <= j < |lines| ensures !(Unnamed(lines[j]) && LastName(lines[..j]).None?) {
            if j < |init| {
              assert init[j] == lines[j] && init[..j] == lines[..j];
            }
          }
        }
      }
    }
  }

  /** One line raises exactly when it is an unnamed GitHub source and no
      name was read before; otherwise it leaves the name `LastName` tracks. */
  lemma LineEntryName(line: string, name: Option<string>)
    ensures LineEntry(line, name).Err? <==> Unnamed(line) && name.None?
    ensures LineEntry(line, name).Ok? ==>
              LineEntry(line, name).value.1 == if LastName([line]).Some? then LastName([line]) else name
  {
    var r := Strip(line);
    if StartsWith(r, "#") {
      assert !StartsWith(r, "git+") by {
        assert r[0] == '#';
      }
    }
    assert [line][..0] == [];
  }

  /** Comment lines after stripping. */
  predicate IsComment(line: string) {
    StartsWith(Strip(line), "#")
  }

  /** The lines that are not comments, stripped. */
  function Stripped(lines: seq<string>): seq<string> {
    if lines == [] then []
    else Stripped(lines[..|lines| - 1]) + (if IsComment(lines[|lines| - 1]) then [] else [Strip(lines[|lines| - 1])])
  }

  /** Without GitHub-source lines the requirements are the non-comment lines,
      stripped, in file order. */
  lemma {:induction false} PlainRequirements(lines: seq<string>)
    requires forall j :: 0 <= j < |lines| ==> !StartsWith(Strip(lines[j]), "git+")
    ensures Requirements(lines) == Ok((Stripped(lines), None))
  {
    if lines != [] {
      var init := lines[..|lines| - 1];
      forall j | 0 <= j < |init| ensures !StartsWith(Strip(init[j]), "git+") {
        assert init[j] == lines[j];
      }
      PlainRequirements(init);
    }
  }

  /** One requirement per non-comment line. */
  lemma {:induction false} RequirementsCount(lines: seq<string>)
    requires Requirements(lines).Ok?
    ensures |Requirements(lines).value.0| == |Stripped(lines)|
  {
    if lines != [] {
      RequirementsCount(lines[..|lines| - 1]);
    }
  }

  // ---------------------------------------------------------------- package data

  /** `os.path.join` of two POSIX path parts. */
  function Join(a: string, b: string): string {
    if StartsWith(b, "/") then b
    else if a == [] || EndsWith(a, "/") then a + b
    else a + "/" + b
  }

  /** One entry yielded by `os.walk`: a directory, its sub-directories, its files. */
  datatype WalkEntry = WalkEntry(path: string, dirList: seq<string>, fileList: seq<string>)

  function JoinAll(path: string, files: seq<string>): seq<string> {
    if files == [] then []
    else JoinAll(path, files[..|files| - 1]) + [Join(path, files[|files| - 1])]
  }

  /** Every file the walk reports, as a path, in walk order. */
  function Listed(walk: seq<WalkEntry>): seq<string> {
    if walk == [] then []
    else Listed(walk[..|walk| - 1]) + JoinAll(walk[|walk| - 1].path, walk[|walk| - 1].fileList)
  }

  predicate HasSuffix(item: string, suffixes: seq<string>) {
    exists k :: 0 <= k < |suffixes| && EndsWith(item, suffixes[k])
  }

  /** The paths that end with one of the suffixes, in order, each once. */
  function Kept(items: seq<string>, suffixes: seq<string>): seq<string> {
    if items == [] then []
    else Kept(items[..|items| - 1], suffixes) + (if HasSuffix(items[|items| - 1], suffixes) then [items[|items| - 1]] else [])
  }

  /** `s[m:]`, which is empty when `m` is past the end. */
  function DropPrefix(s: string, m: nat): string {
    if m <= |s| then s[m..] else []
  }

  function DropAll(items: seq<string>, m: nat): (r: seq<string>)
    ensures |r| == |items| && forall i :: 0 <= i < |items| ==> r[i] == DropPrefix(items[i], m)
  {
    if items == [] then [] else DropAll(items[..|items| - 1], m) + [DropPrefix(items[|items| - 1], m)]
  }

  /** `get_package_data`: list the walked files, keep those with a wanted
      suffix, and cut the first `len(name) + 1` characters off each. */
  method GetPackageData(name: string, suffixes: seq<string>, walk: seq<WalkEntry>) returns (ret: seq<string>)
    ensures ret == DropAll(Kept(Listed(walk), suffixes), |name| + 1)
  {
    var lst := ListWalk(walk);
    var kept := KeepSuffixed(lst, suffixes);
    ret := DropPrefixes(kept, |name| + 1);
  }

  /** The nested loop over the walk that fills `lst`. */
  method ListWalk(walk: seq<WalkEntry>) returns (lst: seq<string>)
    ensures lst == Listed(walk)
  {
    lst := [];
    for w := 0 to |walk|
      invariant lst == Listed(walk[..w])
    {
      assert walk[..w + 1][..w] == walk[..w];
      var entry := walk[w];
      for f := 0 to |entry.fileList|
        invariant lst == Listed(walk[..w]) + JoinAll(entry.path, entry.fileList[..f])
      {
        assert entry.fileList[..f + 1][..f] == entry.fileList[..f];
        lst := lst + [Join(entry.path, entry.fileList[f])];
      }
      assert entry.fileList[..|entry.fileList|] == entry.fileList;
    }
    assert walk[..|walk|] == walk;
  }

  /** The loop that fills `ret`, leaving the suffix loop at the first match. */
  method KeepSuffixed(lst: seq<string>, suffixes: seq<string>) returns (kept: seq<string>)
    ensures kept == Kept(lst, suffixes)
  {
    kept := [];
    for i := 0 to |lst|
      invariant kept == Kept(lst[..i], suffixes)
    {
      assert lst[..i + 1][..i] == lst[..i];
      for k := 0 to |suffixes|
        invariant forall j :: 0 <= j < k ==> !EndsWith(lst[i], suffixes[j])
      {
        if EndsWith(lst[i], suffixes[k]) {
          kept := kept + [lst[i]];
          break;
        }
      }
    }
    assert lst[..|lst|] == lst;
  }

  /** `[s[M:] for s in ret]`. */
  method DropPrefixes(kept: seq<string>, m: nat) returns (ret: seq<string>)
    ensures ret == DropAll(kept, m)
  {
    ret := [];
    for i := 0 to |kept|
      invariant ret == DropAll(kept[..i], m)
    {
      assert kept[..i + 1][..i] == kept[..i];
      ret := ret + [DropPrefix(kept[i], m)];
    }
    assert kept[..|kept|] == kept;
  }

  /** A path is kept exactly as often as it is listed when it has a wanted
      suffix, and never otherwise. */
  lemma {:induction false} KeptCount(items: seq<string>, suffixes: seq<string>, x: string)
    ensures multiset(Kept(items, suffixes))[x] == if HasSuffix(x, suffixes) then multiset(items)[x] else 0
  {
    if items != [] {
      var init := items[..|items| - 1];
      KeptCount(init, suffixes, x);
      assert items == init + [items[|items| - 1]];
    }
  }

  /** Kept paths keep their relative order: the kept list is a subsequence
      of the listed one. */
  lemma {:induction false} KeptSubsequence(items: seq<string>, suffixes: seq<string>) returns (pos: seq<nat>)
    ensures |pos| == |Kept(items, suffixes)|
    ensures forall i :: 0 <= i < |pos| ==> pos[i] < |items| && items[pos[i]] == Kept(items, suffixes)[i]
    ensures forall i, j :: 0 <= i < j < |pos| ==> pos[i] < pos[j]
  {
    if items == [] {
      pos := [];
    } else {
      var init := items[..|items| - 1];
      pos := KeptSubsequence(init, suffixes);
      forall i | 0 <= i < |pos| ensures items[pos[i]] == init[pos[i]] { }
      if HasSuffix(items[|items| - 1], suffixes) {
        pos := pos + [|items| - 1];
      }
    }
  }

  /** Every path of a walk rooted at `name` lies under `name`. */
  predicate RootedAt(walk: seq<WalkEntry>, name: string) {
    forall w :: 0 <= w < |walk| ==>
      && (walk[w].path == name || StartsWith(walk[w].path, name + "/"))
      && (forall f :: 0 <= f < |walk[w].fileList| ==> !StartsWith(walk[w].fileList[f], "/"))
  }

  /** For a walk of `name` (no trailing '/'), every listed path is `name`
      followed by '/' and the path below it. */
  lemma {:induction false} ListedUnderRoot(walk: seq<WalkEntry>, name: string)
    requires RootedAt(walk, name) && name != [] && !EndsWith(name, "/")
    ensures forall i :: 0 <= i < |Listed(walk)| ==> StartsWith(Listed(walk)[i], name + "/")
  {
    if walk != [] {
      var init := walk[..|walk| - 1];
      var e := walk[|walk| - 1];
      assert RootedAt(init, name) by {
        forall w | 0 <= w < |init| ensures init[w] == walk[w] { }
      }
      ListedUnderRoot(init, name);
      JoinAllUnder(e.path, e.fileList, name);
    }
  }

  lemma {:induction false} JoinAllUnder(path: string, files: seq<string>, name: string)
    requires path == name || StartsWith(path, name + "/")
    requires name != [] && !EndsWith(name, "/")
    requires forall f :: 0 <= f < |files| ==> !StartsWith(files[f], "/")
    ensures forall i :: 0 <= i < |JoinAll(path, files)| ==> StartsWith(JoinAll(path, files)[i], name + "/")
  {
    if files != [] {
      JoinAllUnder(path, files[..|files| - 1], name);
      var p := name + "/";
      var j := Join(path, files[|files| - 1]);
      if path == name {
        assert j == name + "/" + files[|files| - 1];
        assert j[..|p|] == p;
      } else {
        assert path[..|p|] == p;
        assert j[..|p|] == path[..|p|];
      }
    }
  }

  /** The package data of a walk rooted at `name` are the kept paths
      relative to `name`. */
  lemma RelativeToPackage(walk: seq<WalkEntry>, name: string, suffixes: seq<string>)
    requires RootedAt(walk, name) && name != [] && !EndsWith(name, "/")
    ensures var kept := Kept(Listed(walk), suffixes);
            var ret := DropAll(kept, |name| + 1);
            forall i :: 0 <= i < |ret| ==> kept[i] == name + "/" + ret[i]
  {
    var kept := Kept(Listed(walk), suffixes);
    ListedUnderRoot(walk, name);
    var pos := KeptSubsequence(Listed(walk), suffixes);
    forall i | 0 <= i < |kept| ensures kept[i] == name + "/" + DropPrefix(kept[i], |name| + 1) {
      assert StartsWith(Listed(walk)[pos[i]], name + "/");
    }
  }
}
