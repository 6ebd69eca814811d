/**
  `os.path.join` on POSIX (posixpath.join) and the file each collection
  thread writes to, `join(save_dir, info_type) + '.txt'`.
 */
module Paths {

  predicate IsAbsolute(p: string) {
    |p| > 0 && p[0] == '/'
  }

  /** A single path component: non-empty and free of '/'. */
  predicate IsComponent(p: string) {
    |p| > 0 && '/' !in p
  }

  /** The separator `join` inserts after `a`: none when `a` is empty or already ends in '/'. */
  function SepAfter(a: string): string {
    if |a| == 0 || a[|a| - 1] == '/' then "" else "/"
  }

  /**
    posixpath.join(a, b): an absolute `b` replaces everything before it;
    otherwise `b` is appended after a separator unless `a` is empty or
    already ends in '/'.
   */
  function Join2(a: string, b: string): (r: string)
    ensures IsAbsolute(b) ==> r == b
    ensures !IsAbsolute(b) ==>
              && |r| == |a| + |SepAfter(a)| + |b|
              && r[..|a|] == a
              && r[|a| + |SepAfter(a)|..] == b
    ensures !IsAbsolute(b) && (|a| == 0 || a[|a| - 1] == '/') ==> r == a + b
    ensures !IsAbsolute(b) && |a| > 0 && a[|a| - 1] != '/' ==> |r| == |a| + 1 + |b| && r[|a|] == '/'
  {
    if IsAbsolute(b) then b else a + SepAfter(a) + b
  }

  /** posixpath.join(*parts), folded left to right. */
  function Join(parts: seq<string>): string
    requires |parts| >= 1
    decreases |parts|
  {
    if |parts| == 1 then parts[0] else Join2(Join(parts[..|parts| - 1]), parts[|parts| - 1])
  }

  /** posixpath.basename: what follows the last '/'. */
  function Basename(p: string): (r: string)
    ensures '/' !in r
    decreases |p|
  {
    if |p| == 0 || p[|p| - 1] == '/' then "" else Basename(p[..|p| - 1]) + [p[|p| - 1]]
  }

  /** The file a `store_info` thread opens: `join(save_dir, info_type) + '.txt'`. */
  function OutputFile(saveDir: string, infoType: string): string {
    Join([saveDir, infoType]) + ".txt"
  }

  lemma {:induction false} BasenameAfterSlash(a: string, b: string)
    requires '/' !in b
    ensures Basename(a + "/" + b) == b
    decreases |b|
  {
    var p := a + "/" + b;
    if |b| > 0 {
      assert p[..|p| - 1] == a + "/" + b[..|b| - 1];
      BasenameAfterSlash(a, b[..|b| - 1]);
      assert b[..|b| - 1] + [b[|b| - 1]] == b;
    }
  }

  /** Joining a component onto any path makes that component the basename. */
  lemma JoinBasename(a: string, b: string)
    requires IsComponent(b)
    ensures Basename(Join2(a, b)) == b
  {
    if |a| == 0 {
      BasenameOfComponent(b);
    } else if a[|a| - 1] == '/' {
      var a' := a[..|a| - 1];
      assert a == a' + "/";
      assert Join2(a, b) == a' + "/" + b;
      BasenameAfterSlash(a', b);
    } else {
      BasenameAfterSlash(a, b);
    }
  }

  lemma {:induction false} BasenameOfComponent(b: string)
    requires '/' !in b
    ensures Basename(b) == b
    decreases |b|
  {
    if |b| > 0 {
      BasenameOfComponent(b[..|b| - 1]);
      assert b[..|b| - 1] + [b[|b| - 1]] == b;
    }
  }

  /**
    Joining a base, then components: the base is kept as written and each
    component is preceded by exactly one separator.
   */
  lemma JoinComponents(base: string, b: string, c: string)
    requires IsComponent(b) && IsComponent(c)
    ensures Join([base, b, c]) == base + SepAfter(base) + b + "/" + c
    ensures Basename(Join([base, b, c])) == c
  {
    var d := base + SepAfter(base) + b;
    JoinThree(base, b, c);
    assert SepAfter(d) == "/" by {
      assert d[|d| - 1] == b[|b| - 1];
    }
    BasenameAfterSlash(d, c);
  }

  /** `join(base, b, c)` is `join(join(base, b), c)`. */
  lemma JoinThree(base: string, b: string, c: string)
    requires !IsAbsolute(b) && !IsAbsolute(c)
    ensures Join([base, b, c]) == Join2(base + SepAfter(base) + b, c)
  {
    assert [base, b, c][..2] == [base, b];
    assert [base, b][..1] == [base];
    assert Join([base, b]) == Join2(base, b) == base + SepAfter(base) + b;
  }

  /** An absolute component discards everything joined before it. */
  lemma JoinAbsoluteResets(base: string, b: string, c: string)
    requires IsAbsolute(b) && IsComponent(c)
    ensures Join([base, b, c]) == b + SepAfter(b) + c
  {
    assert [base, b, c][..2] == [base, b];
    assert [base, b][..1] == [base];
  }

  /** Joining one relative component appends it after the separator. */
  lemma JoinTwo(base: string, b: string)
    requires !IsAbsolute(b)
    ensures Join([base, b]) == base + SepAfter(base) + b
  {
    assert [base, b][..1] == [base];
  }

  /** Different relative info types never share an output file under the same directory. */
  lemma OutputFileInjective(saveDir: string, x: string, y: string)
    requires !IsAbsolute(x) && !IsAbsolute(y)
    ensures OutputFile(saveDir, x) == OutputFile(saveDir, y) ==> x == y
  {
    JoinTwo(saveDir, x);
    JoinTwo(saveDir, y);
    var pre := saveDir + SepAfter(saveDir);
    var fx, fy := pre + x + ".txt", pre + y + ".txt";
    if fx == fy {
      assert |x| == |y|;
      assert x == fx[|pre|..|pre| + |x|];
      assert y == fy[|pre|..|pre| + |y|];
    }
  }
}
