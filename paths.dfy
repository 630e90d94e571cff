/**
 * The POSIX path functions of Python's `os.path` (module `posixpath`) that the core
 * uses: `basename`, `dirname`, `join` (two arguments) and `splitext`.
 */
module Paths {
  import opened Strings

  /**
   * `os.path.basename(p)`: what follows the last `/`. It is also `p.split("/")[-1]`,
   * the file-body extraction the application and the controller write by hand.
   */
  function Basename(p: string): (r: string)
    ensures |r| <= |p|
  {
    if p == [] || p[|p| - 1] == '/' then
      []
    else
      Basename(p[..|p| - 1]) + [p[|p| - 1]]
  }

  /**
   * The base name is the longest tail of the path without a `/`: it holds no `/`,
   * a `/` precedes it unless it is the whole path, and a path without `/` is its own base name.
   */
  lemma {:induction false} BasenameIsLastComponent(p: string)
    ensures var r := Basename(p);
      && '/' !in r
      && EndsWith(p, r)
      && (|r| < |p| ==> p[|p| - |r| - 1] == '/')
      && ('/' !in p ==> r == p)
  {
    if p != [] && p[|p| - 1] != '/' {
      var init := p[..|p| - 1];
      BasenameIsLastComponent(init);
      assert p == init + [p[|p| - 1]];
      var r := Basename(init);
      assert p[|p| - |r| - 1..] == init[|init| - |r|..] + [p[|p| - 1]];
      if '/' !in p {
        assert '/' !in init by {
          assert forall k :: 0 <= k < |init| ==> init[k] == p[k];
        }
      }
    }
  }

  /** After a path that is empty or ends in `/`, a name without `/` is the base name. */
  lemma {:induction false} BasenameAfterSlash(x: string, b: string)
    requires x == [] || x[|x| - 1] == '/'
    requires '/' !in b
    ensures Basename(x + b) == b
    decreases |b|
  {
    if b == [] {
      assert x + b == x;
    } else {
      var init := b[..|b| - 1];
      assert b[|b| - 1] in b;
      assert '/' !in init by {
        assert forall k :: 0 <= k < |init| ==> init[k] == b[k];
      }
      assert (x + b)[..|x + b| - 1] == x + init;
      BasenameAfterSlash(x, init);
      assert b == init + [b[|b| - 1]];
    }
  }

  predicate AllSlashes(s: string) {
    forall i :: 0 <= i < |s| ==> s[i] == '/'
  }

  /** `s.rstrip("/")` */
  function RStripSlashes(s: string): (r: string)
    ensures |r| <= |s|
  {
    if s != [] && s[|s| - 1] == '/' then RStripSlashes(s[..|s| - 1]) else s
  }

  /** Stripping leaves a prefix not ending in `/`, and only slashes were removed. */
  lemma {:induction false} RStripSlashesSpec(s: string)
    ensures var r := RStripSlashes(s);
      && r == s[..|r|]
      && (r != [] ==> r[|r| - 1] != '/')
      && AllSlashes(s[|r|..])
  {
    if s != [] && s[|s| - 1] == '/' {
      var init := s[..|s| - 1];
      RStripSlashesSpec(init);
      var r := RStripSlashes(init);
      assert s[|r|..] == init[|r|..] + ['/'];
      assert init[..|r|] == s[..|r|];
    }
  }

  /**
   * `os.path.dirname(p)`: everything up to the last `/`, with trailing slashes
   * removed unless the head is made of slashes only.
   */
  function Dirname(p: string): (r: string)
  {
    var head := p[..RFind(p, '/') + 1];
    if head != [] && !AllSlashes(head) then RStripSlashes(head) else head
  }

  /** What `dirname` can return: a run of slashes (possibly empty), or a path not ending in `/`. */
  predicate DirectoryShape(d: string) {
    AllSlashes(d) || d[|d| - 1] != '/'
  }

  lemma DirnameShape(p: string)
    ensures DirectoryShape(Dirname(p))
  {
    RStripSlashesSpec(p[..RFind(p, '/') + 1]);
  }

  /** `os.path.join(a, b)` */
  function Join(a: string, b: string): string {
    if StartsWith(b, "/") then b
    else if a == [] || EndsWith(a, "/") then a + b
    else a + "/" + b
  }

  /** What `join` puts in front of a relative name. */
  function DirPrefix(a: string): (r: string)
    ensures r == [] || r[|r| - 1] == '/'
  {
    if a == [] || EndsWith(a, "/") then a else a + "/"
  }

  lemma JoinRelative(a: string, b: string)
    requires '/' !in b
    ensures Join(a, b) == DirPrefix(a) + b
  {
  }

  /** Joining a plain name to a directory puts that name last. */
  lemma BasenameOfJoin(a: string, b: string)
    requires '/' !in b
    ensures Basename(Join(a, b)) == b
  {
    JoinRelative(a, b);
    BasenameAfterSlash(DirPrefix(a), b);
  }

  /** Joining a plain name to what `dirname` returned gives back that directory. */
  lemma DirnameOfJoin(a: string, b: string)
    requires '/' !in b && DirectoryShape(a)
    ensures Dirname(Join(a, b)) == a
  {
    JoinRelative(a, b);
    var d := DirPrefix(a);
    var p := d + b;
    if d == [] {
      assert p == b;
      RFindIsLast(b, '/');
    } else {
      assert d == d[..|d| - 1] + ['/'];
      RFindAfter(d[..|d| - 1], '/', b);
      assert d[..|d| - 1] + ['/'] + b == p;
      assert p[..RFind(p, '/') + 1] == d;
      if !AllSlashes(a) {
        assert d == a + "/";
        assert RStripSlashes(d) == RStripSlashes(a);
      }
    }
  }

  /** A name part made of dots only (`..` and the like), which `splitext` does not split. */
  predicate AllDots(s: string) {
    forall i :: 0 <= i < |s| ==> s[i] == '.'
  }

  /** `os.path.splitext(p)`: the last extension of the last component, if it has a non-dot before it. */
  function Splitext(p: string): (string, string) {
    var sep := RFind(p, '/');
    var dot := RFind(p, '.');
    if dot > sep && !AllDots(p[sep + 1..dot]) then (p[..dot], p[dot..]) else (p, "")
  }

  /** The two parts put back together give the path; a non-empty extension is one dot and no separator. */
  lemma SplitextParts(p: string)
    ensures var (root, ext) := Splitext(p);
      && root + ext == p
      && (ext != [] ==> ext[0] == '.' && '/' !in ext && '.' !in ext[1..])
  {
    var sep := RFind(p, '/');
    var dot := RFind(p, '.');
    if dot > sep && !AllDots(p[sep + 1..dot]) {
      RFindIsLast(p, '/');
      RFindIsLast(p, '.');
      assert forall j :: dot < j < |p| ==> p[j] != '.' && p[j] != '/';
      assert p[..dot] + p[dot..] == p;
    }
  }

  /** `splitext` cuts at the last dot when that dot follows the last slash and a non-dot. */
  lemma SplitextAt(p: string, sep: int, dot: int)
    requires RFind(p, '/') == sep && RFind(p, '.') == dot
    requires sep < dot && !AllDots(p[sep + 1..dot])
    ensures Splitext(p) == (p[..dot], p[dot..])
  {
  }

  lemma LastDotOfName(prefix: string, stem: string, ext: string)
    requires '.' !in ext
    ensures RFind(prefix + stem + "." + ext, '.') == |prefix| + |stem|
  {
    assert prefix + stem + "." + ext == (prefix + stem) + ['.'] + ext;
    RFindAfter(prefix + stem, '.', ext);
  }

  lemma LastSlashOfName(prefix: string, stem: string, ext: string)
    requires prefix == [] || prefix[|prefix| - 1] == '/'
    requires '/' !in stem && '/' !in ext
    ensures RFind(prefix + stem + "." + ext, '/') == |prefix| - 1
  {
    var rest := stem + "." + ext;
    assert '/' !in rest by {
      assert forall k :: 0 <= k < |rest| ==> rest[k] in stem || rest[k] == '.' || rest[k] in ext;
    }
    assert prefix + stem + "." + ext == prefix + rest;
    RFindExtend(prefix, '/', rest);
  }

  /**
   * Splitting `dir/stem.ext`, where the stem does not start with a dot and the
   * extension has no further dot, removes exactly `.ext`.
   */
  lemma SplitextOfName(prefix: string, stem: string, ext: string)
    requires prefix == [] || prefix[|prefix| - 1] == '/'
    requires stem != [] && stem[0] != '.' && '/' !in stem
    requires '.' !in ext && '/' !in ext
    ensures Splitext(prefix + stem + "." + ext) == (prefix + stem, "." + ext)
  {
    var p := prefix + stem + "." + ext;
    var dot := |prefix| + |stem|;
    LastDotOfName(prefix, stem, ext);
    LastSlashOfName(prefix, stem, ext);
    assert p == (prefix + stem) + ("." + ext);
    assert p[..dot] == prefix + stem;
    assert p[dot..] == "." + ext;
    assert p[|prefix|..dot] == stem by {
      assert (prefix + stem)[|prefix|..] == stem;
    }
    assert p[|prefix|..dot][0] == stem[0];
    SplitextAt(p, |prefix| - 1, dot);
  }

  /** Replacing the extension of `dir/stem.ext` by a suffix gives `dir/stem<suffix>`. */
  lemma SplitextOfJoin(dir: string, stem: string, ext: string, suffix: string)
    requires stem != [] && stem[0] != '.' && '/' !in stem
    requires '.' !in ext && '/' !in ext && '/' !in suffix
    ensures Splitext(Join(dir, stem + "." + ext)).0 + suffix == Join(dir, stem + suffix)
  {
    var prefix := DirPrefix(dir);
    assert Join(dir, stem + "." + ext) == prefix + stem + "." + ext by {
      JoinRelative(dir, stem + "." + ext);
    }
    assert Join(dir, stem + suffix) == prefix + stem + suffix by {
      JoinRelative(dir, stem + suffix);
    }
    SplitextOfName(prefix, stem, ext);
  }
}
