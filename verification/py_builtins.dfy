/**
 * The handful of Python built-ins the modelled code relies on, with the
 * semantics CPython gives them: `str.split('/')[-1]`, `posixpath.join` of two
 * parts, `sub in s` for strings, `str(n)` for a natural number, indexing with
 * a possibly negative index and the slice `s[n:]`.
 */
module PyBuiltins {
  import opened Wrappers

  /** `s.split('/')[-1]`: what follows the last '/' of `s`, or all of `s` when it has none. */
  function LastSegment(s: string): (r: string)
    ensures '/' !in r
    ensures |r| <= |s| && r == s[|s| - |r|..]
    ensures |r| < |s| ==> s[|s| - |r| - 1] == '/'
  {
    if s == [] then []
    else if s[|s| - 1] == '/' then []
    else LastSegment(s[..|s| - 1]) + [s[|s| - 1]]
  }

  /** A string without '/' is its own last segment. */
  lemma LastSegmentOfPlainName(s: string)
    requires '/' !in s
    ensures LastSegment(s) == s
  {
    assert forall i | 0 <= i < |s| :: s[i] != '/';
  }

  /** When `s` ends with a '/' followed by `name`, its last segment is `name`. */
  lemma LastSegmentAfterSlash(s: string, name: string)
    requires '/' !in name
    requires |name| < |s| && s[|s| - |name| - 1] == '/' && s[|s| - |name|..] == name
    ensures LastSegment(s) == name
  {
    var r := LastSegment(s);
    assert forall i | 0 <= i < |r| :: r[i] != '/';
    assert forall i | 0 <= i < |name| :: name[i] != '/';
  }

  /** `os.path.join(a, b)` on POSIX: an absolute `b` replaces `a`; otherwise one '/' separates them. */
  function JoinPath(a: string, b: string): string
  {
    if |b| > 0 && b[0] == '/' then b
    else if a == [] || a[|a| - 1] == '/' then a + b
    else a + "/" + b
  }

  /**
   * What `os.path.join(a, b)` is: `b` itself when it is absolute; otherwise `a`,
   * then exactly one '/' unless `a` is empty or already ends with one, then `b`.
   */
  lemma JoinPathMeaning(a: string, b: string)
    ensures |b| > 0 && b[0] == '/' ==> JoinPath(a, b) == b
    ensures !(|b| > 0 && b[0] == '/') ==>
              var r := JoinPath(a, b);
              var sep := if a == [] || a[|a| - 1] == '/' then 0 else 1;
              |r| == |a| + sep + |b| && r[..|a|] == a && r[|a| + sep..] == b &&
              (sep == 1 ==> r[|a|] == '/')
  {
    if !(|b| > 0 && b[0] == '/') && a != [] && a[|a| - 1] != '/' {
      assert JoinPath(a, b) == a + "/" + b;
      assert (a + "/" + b)[|a| + 1..] == b;
    }
  }

  /** Joining a plain name onto a directory and splitting on '/' gives the name back. */
  lemma {:induction false} SegmentOfJoin(dir: string, name: string)
    requires '/' !in name
    ensures LastSegment(JoinPath(dir, name)) == name
  {
    assert |name| == 0 || name[0] != '/';
    JoinPathMeaning(dir, name);
    if dir == [] {
      LastSegmentOfPlainName(name);
    } else {
      var r := JoinPath(dir, name);
      if dir[|dir| - 1] == '/' {
        assert r[|dir| - 1] == dir[|dir| - 1];
      }
      LastSegmentAfterSlash(r, name);
    }
  }

  /** `p` is listed directly inside directory `dir`: joining its last segment onto `dir` rebuilds it. */
  predicate IsEntryOf(p: string, dir: string)
  {
    LastSegment(p) != [] && JoinPath(dir, LastSegment(p)) == p
  }

  /** A non-empty plain name joined onto a directory is an entry of that directory. */
  lemma JoinedNameIsEntry(dir: string, name: string)
    requires name != [] && '/' !in name
    ensures IsEntryOf(JoinPath(dir, name), dir)
  {
    SegmentOfJoin(dir, name);
  }

  /** `s.startswith(prefix)`. */
  predicate StartsWith(s: string, prefix: string)
  {
    |prefix| <= |s| && s[..|prefix|] == prefix
  }

  /** Python's `pattern in s` on strings: `pattern` occurs at some offset of `s`. */
  predicate Contains(s: string, pattern: string)
  {
    exists i | 0 <= i <= |s| :: StartsWith(s[i..], pattern)
  }

  /** A string contains whatever is glued into it. */
  lemma ContainsInfix(x: string, pattern: string, y: string)
    ensures Contains(x + pattern + y, pattern)
  {
    var s := x + pattern + y;
    assert s[|x|..][..|pattern|] == pattern;
    assert StartsWith(s[|x|..], pattern);
  }

  /** The character of decimal digit `d`. */
  function DigitChar(d: nat): (c: char)
    requires d < 10
    ensures '0' <= c <= '9'
  {
    ('0' as int + d) as char
  }

  /** `str(n)` for a natural number: its decimal digits, most significant first, no leading zero. */
  function Decimal(n: nat): (r: string)
    ensures 1 <= |r|
    ensures n < 10 <==> |r| == 1
    ensures forall i :: 0 <= i < |r| ==> '0' <= r[i] <= '9'
    ensures r[|r| - 1] == DigitChar(n % 10)
  {
    if n < 10 then [DigitChar(n)] else Decimal(n / 10) + [DigitChar(n % 10)]
  }

  /** Decimal renderings never contain a path separator. */
  lemma DecimalHasNoSlash(n: nat)
    ensures '/' !in Decimal(n)
  {
    var r := Decimal(n);
    assert forall i | 0 <= i < |r| :: r[i] != '/';
  }

  /** Different numbers have different renderings. */
  lemma {:induction false} DecimalInjective(a: nat, b: nat)
    ensures Decimal(a) == Decimal(b) <==> a == b
  {
    var da, db := Decimal(a), Decimal(b);
    if da == db {
      assert a % 10 == b % 10 by {
        assert DigitChar(a % 10) == DigitChar(b % 10);
      }
      if a >= 10 && b >= 10 {
        assert Decimal(a / 10) == da[..|da| - 1];
        assert Decimal(b / 10) == db[..|db| - 1];
        DecimalInjective(a / 10, b / 10);
      }
    }
  }

  /** Gluing two strings without '/' gives a string without '/'. */
  lemma NoSlashInConcat(a: string, b: string)
    requires '/' !in a && '/' !in b
    ensures '/' !in a + b
  {
    assert forall i | 0 <= i < |a + b| :: (a + b)[i] == if i < |a| then a[i] else b[i - |a|];
  }

  /** `s[i]` with Python's negative indexing; None where Python raises IndexError. */
  function PyIndex<T>(s: seq<T>, i: int): (r: Option<T>)
    ensures r.Some? <==> -|s| <= i < |s|
    ensures 0 <= i < |s| ==> r == Some(s[i])
    ensures -|s| <= i < 0 ==> r == Some(s[|s| + i])
  {
    if 0 <= i < |s| then Some(s[i])
    else if -|s| <= i < 0 then Some(s[|s| + i])
    else None
  }

  /** `s[n:]` for a natural `n`: never raises, empty when `s` is shorter than `n`. */
  function PySliceFrom<T>(s: seq<T>, n: nat): (r: seq<T>)
    ensures |r| == if |s| <= n then 0 else |s| - n
    ensures forall i :: 0 <= i < |r| ==> r[i] == s[n + i]
  {
    if |s| <= n then [] else s[n..]
  }
}
