/**
 `DiscoverFromChangedFiles`: the candidate project roots of a change, which are
 also the locks an event takes. Paths are kept in cleaned form, as a list of
 components; `PathText` is the string the program holds for one.
 */
module Discovery {
  import opened Text

  /** A path as filepath.Clean leaves it. */
  datatype CleanPath = CleanPath(rooted: bool, parts: seq<string>)

  const CONFIG := "thule.conf"
  const DOT := CleanPath(false, [])

  // ----- filepath.Clean and filepath.Dir -----

  /** One component more: empty and "." vanish, ".." cancels a name. */
  function Push(rooted: bool, done: seq<string>, part: string): (r: seq<string>) {
    if part == "" || part == "." then done
    else if part != ".." then done + [part]
    else if done != [] && done[|done| - 1] != ".." then done[..|done| - 1]
    else if rooted then done
    else done + [".."]
  }

  function PushAll(rooted: bool, done: seq<string>, parts: seq<string>): (r: seq<string>)
    decreases |parts|
  {
    if parts == [] then done else PushAll(rooted, Push(rooted, done, parts[0]), parts[1..])
  }

  function Clean(p: string): (c: CleanPath) {
    var rooted := |p| > 0 && p[0] == '/';
    CleanPath(rooted, PushAll(rooted, [], Split(p, '/')))
  }

  function DirOf(c: CleanPath): (d: CleanPath)
    ensures c.parts != [] ==> |d.parts| == |c.parts| - 1
  {
    if c.parts == [] then c else c.(parts := c.parts[..|c.parts| - 1])
  }

  function PathText(c: CleanPath): (s: string) {
    if c.rooted then "/" + JoinWith(c.parts, "/")
    else if c.parts == [] then "." else JoinWith(c.parts, "/")
  }

  /** No empty, "." or slashed component; ".." only at the front of a relative path. */
  ghost predicate Canonical(c: CleanPath) {
    && (forall p :: p in c.parts ==> p != "" && p != "." && '/' !in p)
    && (c.rooted ==> ".." !in c.parts)
    && (forall i, j :: 0 <= i < j < |c.parts| && c.parts[j] == ".." ==> c.parts[i] == "..")
  }

  lemma {:induction false} PushAllCanonical(rooted: bool, done: seq<string>, parts: seq<string>)
    requires Canonical(CleanPath(rooted, done)) && forall p :: p in parts ==> '/' !in p
    ensures Canonical(CleanPath(rooted, PushAll(rooted, done, parts)))
    decreases |parts|
  {
    if parts != [] {
      var next := Push(rooted, done, parts[0]);
      assert Canonical(CleanPath(rooted, next)) by {
        assert forall p :: p in next ==> p in done || p == parts[0];
      }
      PushAllCanonical(rooted, next, parts[1..]);
    }
  }

  lemma {:induction false} PushAllOfCanonical(rooted: bool, parts: seq<string>, n: nat)
    requires Canonical(CleanPath(rooted, parts)) && n <= |parts|
    ensures PushAll(rooted, parts[..n], parts[n..]) == parts
    decreases |parts| - n
  {
    if n == |parts| {
      assert parts[..n] == parts && parts[n..] == [];
    } else {
      var part := parts[n];
      assert part in parts;
      assert parts[n..][0] == part && parts[n..][1..] == parts[n + 1..];
      assert parts[..n + 1] == parts[..n] + [part];
      assert Push(rooted, parts[..n], part) == parts[..n + 1];
      PushAllOfCanonical(rooted, parts, n + 1);
    }
  }

  lemma {:induction false} SplitOfJoin(parts: seq<string>)
    requires parts != [] && forall p :: p in parts ==> '/' !in p
    ensures Split(JoinWith(parts, "/"), '/') == parts
    decreases |parts|
  {
    if |parts| == 1 {
      SplitPrefix(parts[0], "");
      assert parts[0] + "" == parts[0];
      assert [parts[0] + Split("", '/')[0]] + Split("", '/')[1..] == parts;
    } else {
      var rest := JoinWith(parts[1..], "/");
      SplitOfJoin(parts[1..]);
      var s := "/" + rest;
      assert s[0] == '/' && s[1..] == rest;
      assert Split(s, '/') == [""] + parts[1..];
      SplitPrefix(parts[0], s);
      assert parts[0] + "/" + rest == parts[0] + s;
      assert parts[0] + "" == parts[0] && ([""] + parts[1..])[1..] == parts[1..];
      assert parts == [parts[0]] + parts[1..];
    }
  }

  lemma {:induction false} SplitPrefix(p: string, s: string)
    requires '/' !in p
    ensures Split(p + s, '/') == [p + Split(s, '/')[0]] + Split(s, '/')[1..]
    decreases |p|
  {
    var rest := Split(s, '/');
    if p == "" {
      assert p + s == s && p + rest[0] == rest[0];
      assert rest == [rest[0]] + rest[1..];
    } else {
      assert (p + s)[1..] == p[1..] + s;
      SplitPrefix(p[1..], s);
      assert [p[0]] + (p[1..] + rest[0]) == p + rest[0];
    }
  }

  /** Cleaning gives a canonical path, and cleaning the text of one gives it back:
      the text determines the path. */
  lemma CleanIsCanonical(p: string)
    ensures Canonical(Clean(p))
  {
    var rooted := |p| > 0 && p[0] == '/';
    PushAllCanonical(rooted, [], Split(p, '/'));
  }

  lemma CleanOfText(c: CleanPath)
    requires Canonical(c)
    ensures Clean(PathText(c)) == c
  {
    var s := PathText(c);
    PushAllOfCanonical(c.rooted, c.parts, 0);
    assert c.parts[..0] == [] && c.parts[0..] == c.parts;
    if c.parts != [] {
      var j := JoinWith(c.parts, "/");
      SplitOfJoin(c.parts);
      if c.rooted {
        assert s[0] == '/' && s[1..] == j;
        assert Split(s, '/') == [""] + c.parts;
        assert ([""] + c.parts)[1..] == c.parts;
      } else {
        assert c.parts[0] in c.parts;
        assert s[0] == c.parts[0][0];
        assert c.parts[0][0] in c.parts[0];
      }
    } else if c.rooted {
      assert s == "/";
      assert s[1..] == "" && Split(s, '/') == ["", ""];
      assert ["", ""][1..] == [""] && [""][1..] == [];
      assert PushAll(true, [], [""]) == [];
    } else {
      assert s == ".";
      SplitOfJoin(["."]);
      assert ["."][1..] == [];
    }
  }

  // ----- Roots -----

  predicate Blank(p: string) {
    forall i :: 0 <= i < |p| ==> IsSpace(p[i])
  }

  /** d and all the directories above it. */
  function Ancestors(d: CleanPath): (s: set<CleanPath>) {
    set n | 0 <= n <= |d.parts| :: d.(parts := d.parts[..n])
  }

  function FileRoots(file: string): (s: set<CleanPath>) {
    if Blank(file) then {} else Ancestors(DirOf(Clean(file)))
  }

  /** The roots of a change: every ancestor directory of a non-blank file. */
  function Roots(files: seq<string>): (s: set<CleanPath>) {
    set i, d | 0 <= i < |files| && d in FileRoots(files[i]) :: d
  }

  datatype Project = Project(root: CleanPath, config: CleanPath)

  lemma AncestorsStep(d: CleanPath)
    ensures d.parts == [] ==> Ancestors(d) == {d}
    ensures d.parts != [] ==> Ancestors(d) == {d} + Ancestors(DirOf(d))
  {
    var full := d.(parts := d.parts[..|d.parts|]);
    assert full == d;
    assert d in Ancestors(d);
    if d.parts == [] {
      assert forall n :: 0 <= n <= |d.parts| ==> d.parts[..n] == [];
    } else {
      var up := DirOf(d);
      assert forall n :: 0 <= n < |d.parts| ==> up.parts[..n] == d.parts[..n];
      forall x | x in Ancestors(d) ensures x in {d} + Ancestors(up) {
        var n :| 0 <= n <= |d.parts| && x == d.(parts := d.parts[..n]);
        if n < |d.parts| { assert x == up.(parts := up.parts[..n]); }
      }
      forall x | x in Ancestors(up) ensures x in Ancestors(d) {
        var n :| 0 <= n <= |up.parts| && x == up.(parts := up.parts[..n]);
        assert x == d.(parts := d.parts[..n]);
      }
    }
  }

  /** With a root, every directory above it is a root too. */
  lemma RootsAncestorClosed(files: seq<string>, d: CleanPath, up: CleanPath)
    requires d in Roots(files) && up in Ancestors(d)
    ensures up in Roots(files)
  {
    var i :| 0 <= i < |files| && d in FileRoots(files[i]);
    var top := DirOf(Clean(files[i]));
    var n :| 0 <= n <= |top.parts| && d == top.(parts := top.parts[..n]);
    var m :| 0 <= m <= |d.parts| && up == d.(parts := d.parts[..m]);
    assert d.parts[..m] == top.parts[..m];
    assert up == top.(parts := top.parts[..m]);
    assert up in FileRoots(files[i]);
  }

  /** A change with a relative file has the root "."; so any two such changes
      have a root in common. */
  lemma RelativeChangeHasDot(files: seq<string>, i: nat)
    requires i < |files| && !Blank(files[i]) && files[i][0] != '/'
    ensures DOT in Roots(files)
  {
    var d := DirOf(Clean(files[i]));
    assert d.(parts := d.parts[..0]) == DOT;
    assert DOT in FileRoots(files[i]);
  }

  method DiscoverFromChangedFiles(files: seq<string>) returns (out: seq<Project>)
    ensures forall i :: 0 <= i < |out| ==> out[i].config == out[i].root.(parts := out[i].root.parts + [CONFIG])
    ensures forall i, j :: 0 <= i < j < |out| ==> out[i].root != out[j].root
    ensures (set i | 0 <= i < |out| :: out[i].root) == Roots(files)
  {
    var uniq: set<CleanPath> := {};
    for n := 0 to |files|
      invariant uniq == Configs(Roots(files[..n]))
    {
      var added := AncestorConfigs(files[n]);
      assert Roots(files[..n + 1]) == Roots(files[..n]) + FileRoots(files[n]) by { RootsStep(files, n); }
      uniq := uniq + added;
    }
    assert files[..|files|] == files;
    out := ListProjects(uniq, Roots(files));
  }

  function ConfigOf(d: CleanPath): CleanPath {
    d.(parts := d.parts + [CONFIG])
  }

  ghost function Configs(ds: set<CleanPath>): set<CleanPath> {
    set d | d in ds :: ConfigOf(d)
  }

  lemma RootsStep(files: seq<string>, n: nat)
    requires n < |files|
    ensures Roots(files[..n + 1]) == Roots(files[..n]) + FileRoots(files[n])
  {
    var l, r := Roots(files[..n + 1]), Roots(files[..n]) + FileRoots(files[n]);
    forall d | d in l ensures d in r {
      var i :| 0 <= i < n + 1 && d in FileRoots(files[..n + 1][i]);
      if i < n { assert files[..n][i] == files[i]; }
    }
    forall d | d in r ensures d in l {
      if d in FileRoots(files[n]) {
        assert files[..n + 1][n] == files[n];
      } else {
        var i :| 0 <= i < n && d in FileRoots(files[..n][i]);
        assert files[..n + 1][i] == files[..n][i];
      }
    }
  }

  /** The inner loop: walk up from the file's directory, one candidate a level. */
  method AncestorConfigs(file: string) returns (uniq: set<CleanPath>)
    ensures uniq == Configs(FileRoots(file))
  {
    uniq := {};
    if Blank(file) {
      return;
    }
    var dir := DirOf(Clean(file));
    while true
      invariant uniq + Configs(Ancestors(dir)) == Configs(FileRoots(file))
      decreases |dir.parts|
    {
      AncestorsStep(dir);
      assert Configs({dir}) == {ConfigOf(dir)};
      uniq := uniq + {ConfigOf(dir)};
      if dir.parts == [] {
        break;
      }
      assert Configs({dir} + Ancestors(DirOf(dir))) == {ConfigOf(dir)} + Configs(Ancestors(DirOf(dir)));
      dir := DirOf(dir);
    }
  }

  ghost predicate Lists(out: seq<Project>, config: CleanPath) {
    exists i :: 0 <= i < |out| && out[i].config == config
  }

  method ListProjects(uniq: set<CleanPath>, ghost roots: set<CleanPath>) returns (out: seq<Project>)
    requires uniq == Configs(roots)
    ensures forall i :: 0 <= i < |out| ==> out[i].config == ConfigOf(out[i].root)
    ensures forall i, j :: 0 <= i < j < |out| ==> out[i].root != out[j].root
    ensures (set i | 0 <= i < |out| :: out[i].root) == roots
  {
    out := [];
    var todo := uniq;
    while todo != {}
      invariant todo <= uniq
      invariant forall i :: 0 <= i < |out| ==> out[i].config == ConfigOf(out[i].root) && out[i].config in uniq - todo
      invariant forall i, j :: 0 <= i < j < |out| ==> out[i].root != out[j].root
      invariant forall c :: c in uniq ==> c in todo || Lists(out, c)
      decreases |todo|
    {
      var config :| config in todo;
      ghost var root :| root in roots && config == ConfigOf(root);
      assert DirOf(config) == root;
      ghost var before := out;
      out := out + [Project(DirOf(config), config)];
      assert out[|before|].config == config;
      forall c | Lists(before, c) ensures Lists(out, c) {
        var i :| 0 <= i < |before| && before[i].config == c;
        assert out[i].config == c;
      }
      todo := todo - {config};
    }
    RootsOfProjects(out, uniq, roots);
  }

  lemma RootsOfProjects(out: seq<Project>, uniq: set<CleanPath>, roots: set<CleanPath>)
    requires uniq == Configs(roots)
    requires forall i :: 0 <= i < |out| ==> out[i].config == ConfigOf(out[i].root) && out[i].config in uniq
    requires forall c :: c in uniq ==> Lists(out, c)
    ensures (set i | 0 <= i < |out| :: out[i].root) == roots
  {
    forall i | 0 <= i < |out| ensures out[i].root in roots {
      assert out[i].config in Configs(roots);
      var d :| d in roots && out[i].config == ConfigOf(d);
      assert DirOf(ConfigOf(d)) == d && DirOf(ConfigOf(out[i].root)) == out[i].root;
    }
    forall d | d in roots ensures d in set i | 0 <= i < |out| :: out[i].root {
      assert Lists(out, ConfigOf(d));
      var i :| 0 <= i < |out| && out[i].config == ConfigOf(d);
      assert DirOf(ConfigOf(d)) == d && DirOf(ConfigOf(out[i].root)) == out[i].root;
    }
  }

  // ----- The roots, from the cleaned paths of the files -----

  /** d is a directory that the file at c lies in, at any depth; a file that cleans to
      nothing but the top lies in that. */
  predicate LiesIn(c: CleanPath, d: CleanPath) {
    d.rooted == c.rooted && if c.parts == [] then d.parts == [] else |d.parts| < |c.parts| && d.parts <= c.parts
  }

  /** A directory is a root exactly when some non-blank file lies in it. */
  lemma RootIffFileInside(files: seq<string>, d: CleanPath)
    ensures d in Roots(files) <==> exists i :: 0 <= i < |files| && !Blank(files[i]) && LiesIn(Clean(files[i]), d)
  {
    forall i | 0 <= i < |files| ensures d in FileRoots(files[i]) <==> !Blank(files[i]) && LiesIn(Clean(files[i]), d) {
      FileRootIff(files[i], d);
    }
    if d in Roots(files) {
      var i :| 0 <= i < |files| && d in FileRoots(files[i]);
      assert LiesIn(Clean(files[i]), d);
    }
    if i :| 0 <= i < |files| && !Blank(files[i]) && LiesIn(Clean(files[i]), d) {
      assert d in FileRoots(files[i]);
    }
  }

  lemma FileRootIff(file: string, d: CleanPath)
    ensures d in FileRoots(file) <==> !Blank(file) && LiesIn(Clean(file), d)
  {
    var c := Clean(file);
    var top := DirOf(c);
    if d in FileRoots(file) {
      var n :| 0 <= n <= |top.parts| && d == top.(parts := top.parts[..n]);
      assert c.parts != [] ==> d.parts == c.parts[..n];
    }
    if !Blank(file) && LiesIn(c, d) {
      var n := |d.parts|;
      assert n <= |top.parts| && top.parts[..n] == d.parts;
      assert d == top.(parts := top.parts[..n]);
    }
  }

  // ----- The rules of filepath.Clean -----

  lemma {:induction false} PushAllConcat(rooted: bool, done: seq<string>, xs: seq<string>, ys: seq<string>)
    ensures PushAll(rooted, done, xs + ys) == PushAll(rooted, PushAll(rooted, done, xs), ys)
    decreases |xs|
  {
    if xs == [] {
      assert xs + ys == ys;
    } else {
      assert (xs + ys)[1..] == xs[1..] + ys && (xs + ys)[0] == xs[0];
      PushAllConcat(rooted, Push(rooted, done, xs[0]), xs[1..], ys);
    }
  }

  /** The components a text is cleaned to. */
  function CleanParts(rooted: bool, parts: seq<string>): (r: seq<string>) {
    PushAll(rooted, [], parts)
  }

  /** Empty and "." components make no difference wherever they stand. */
  lemma DotsVanish(rooted: bool, xs: seq<string>, dot: string, ys: seq<string>)
    requires dot == "" || dot == "."
    ensures CleanParts(rooted, xs + [dot] + ys) == CleanParts(rooted, xs + ys)
  {
    PushAllConcat(rooted, [], xs + [dot], ys);
    PushAllConcat(rooted, [], xs, [dot]);
    PushAllConcat(rooted, [], xs, ys);
    assert [dot][1..] == [];
    var done := PushAll(rooted, [], xs);
    assert PushAll(rooted, done, [dot]) == PushAll(rooted, Push(rooted, done, dot), []) == done;
  }

  /** A name and the ".." after it cancel each other wherever they stand. */
  lemma UpCancelsName(rooted: bool, xs: seq<string>, name: string, ys: seq<string>)
    requires name != "" && name != "." && name != ".."
    ensures CleanParts(rooted, xs + [name, ".."] + ys) == CleanParts(rooted, xs + ys)
  {
    PushAllConcat(rooted, [], xs + [name, ".."], ys);
    PushAllConcat(rooted, [], xs, [name, ".."]);
    PushAllConcat(rooted, [], xs, ys);
    var done := PushAll(rooted, [], xs);
    assert [name, ".."][1..] == [".."] && [".."][1..] == [];
    assert Push(rooted, done, name) == done + [name];
    assert (done + [name])[..|done|] == done;
    assert PushAll(rooted, done + [name], [".."]) == PushAll(rooted, done, []);
  }

  /** At the top of a rooted path ".." makes no difference; a relative path keeps it. */
  lemma UpAtTop(ys: seq<string>)
    ensures CleanParts(true, [".."] + ys) == CleanParts(true, ys)
    ensures CleanParts(false, [".."]) == [".."]
  {
    assert ([".."] + ys)[1..] == ys && [".."][1..] == [];
    assert PushAll(false, [".."], []) == [".."];
  }

  /** Components that need no cleaning stay as they are. With the rules above this leaves
      one answer for every text: it is split at the slashes and is rooted if it starts
      with one. */
  lemma CanonicalStays(c: CleanPath)
    requires Canonical(c)
    ensures CleanParts(c.rooted, c.parts) == c.parts
  {
    PushAllOfCanonical(c.rooted, c.parts, 0);
    assert c.parts[..0] == [] && c.parts[0..] == c.parts;
  }

  lemma CleanByRules(p: string)
    ensures Clean(p).rooted <==> p != "" && p[0] == '/'
    ensures Clean(p).parts == CleanParts(Clean(p).rooted, Split(p, '/'))
    ensures JoinWith(Split(p, '/'), ['/']) == p && forall x :: x in Split(p, '/') ==> '/' !in x
  {
    JoinOfSplit(p, '/');
  }
}
