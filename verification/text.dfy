/** String helpers shared by the models: an Option type, ASCII lower-casing,
    substring search, Python's `str.replace` with an empty replacement,
    Python's `str.rsplit(".", 1)[0]`, and the code-point order Python's
    `sorted` uses on `str`. */
module Text {

  datatype Option<+T> = None | Some(value: T)

  /** A value, or the text of the exception raised instead. */
  datatype Result<+T> = Ok(value: T) | Err(error: string)

  /** Lower-cases one character, ASCII letters only. */
  function AsciiLower(c: char): (r: char)
    ensures 'A' <= c <= 'Z' ==> r as int == c as int + 32
    ensures !('A' <= c <= 'Z') ==> r == c
  {
    if 'A' <= c <= 'Z' then (c as int + 32) as char else c
  }

  /** `String.prototype.toLowerCase` restricted to ASCII letters. */
  function LowerAscii(s: string): (r: string)
    ensures |r| == |s|
    ensures forall i :: 0 <= i < |s| ==> r[i] == AsciiLower(s[i])
  {
    seq(|s|, i requires 0 <= i < |s| => AsciiLower(s[i]))
  }

  /** A string with no upper-case ASCII letter. */
  predicate IsLowerAscii(s: string)
  {
    forall i :: 0 <= i < |s| ==> !('A' <= s[i] <= 'Z')
  }

  lemma LowerAsciiFixesLower(s: string)
    requires IsLowerAscii(s)
    ensures LowerAscii(s) == s
  {
  }

  lemma LowerAsciiIdempotent(s: string)
    ensures IsLowerAscii(LowerAscii(s))
    ensures LowerAscii(LowerAscii(s)) == LowerAscii(s)
  {
  }

  predicate StartsWith(s: string, p: string)
  {
    |p| <= |s| && s[..|p|] == p
  }

  /** Python's `p in s`. */
  predicate Contains(s: string, p: string)
    decreases |s|
  {
    StartsWith(s, p) || (|s| > 0 && Contains(s[1..], p))
  }

  /** Python's `s.replace(p, r)` for a non-empty `p`: scans left to right and
      replaces every non-overlapping occurrence. */
  function ReplaceAll(s: string, p: string, r: string): (res: string)
    requires |p| > 0
    ensures |r| == 0 ==> |res| <= |s|
    decreases |s|
  {
    if |s| == 0 then s
    else if StartsWith(s, p) then r + ReplaceAll(s[|p|..], p, r)
    else [s[0]] + ReplaceAll(s[1..], p, r)
  }

  /** Index of the last occurrence of `c` in `s`, or -1. */
  function LastIndexOf(s: string, c: char): (r: int)
    ensures -1 <= r < |s|
    ensures r >= 0 ==> s[r] == c && c !in s[r + 1..]
    ensures r < 0 ==> c !in s
    decreases |s|
  {
    if |s| == 0 then -1
    else if s[|s| - 1] == c then |s| - 1
    else LastIndexOf(s[..|s| - 1], c)
  }

  /** Python's `s.rsplit(".", 1)[0]`: everything before the last dot, or the
      whole string when it has no dot. */
  function StripExtension(s: string): (r: string)
    ensures StartsWith(s, r)
    ensures '.' in s ==> |r| < |s| && s[|r|] == '.' && '.' !in s[|r| + 1..]
    ensures '.' !in s ==> r == s
  {
    var i := LastIndexOf(s, '.');
    if i < 0 then s else s[..i]
  }

  /** The last `c` of `a + [c] + b` is the one after `a` when `b` has none. */
  lemma {:induction false} LastIndexAfter(a: string, c: char, b: string)
    requires c !in b
    ensures LastIndexOf(a + [c] + b, c) == |a|
    decreases |b|
  {
    var s := a + [c] + b;
    if |b| > 0 {
      assert s[..|s| - 1] == a + [c] + b[..|b| - 1];
      assert s[|s| - 1] == b[|b| - 1];
      LastIndexAfter(a, c, b[..|b| - 1]);
    } else {
      assert s[|s| - 1] == c;
    }
  }

  /** `rsplit(".", 1)[0]` of `name + "." + ext` is `name` when `ext` has no dot. */
  lemma StripOneExtension(name: string, ext: string)
    requires '.' !in ext
    ensures StripExtension(name + "." + ext) == name
  {
    LastIndexAfter(name, '.', ext);
    assert (name + "." + ext)[..|name|] == name;
  }

  /** A string without an underscore contains no underscore-led pattern. */
  lemma {:induction false} NoUnderscoreNoMatch(s: string, p: string)
    requires '_' !in s && |p| > 0 && p[0] == '_'
    ensures !Contains(s, p)
    decreases |s|
  {
    if |s| > 0 {
      NoUnderscoreNoMatch(s[1..], p);
      if |p| <= |s| { assert s[..|p|][0] == s[0]; }
    }
  }

  lemma {:induction false} ReplaceAbsent(s: string, p: string, r: string)
    requires |p| > 0 && !Contains(s, p)
    ensures ReplaceAll(s, p, r) == s
    decreases |s|
  {
    if |s| > 0 {
      ReplaceAbsent(s[1..], p, r);
      assert s == [s[0]] + s[1..];
    }
  }

  /** A pattern such as "_tap" or "_level": it starts with an underscore and
      has no other one, so no proper suffix of it is also a prefix. */
  predicate UnderscoreLed(p: string)
  {
    |p| > 0 && p[0] == '_' && '_' !in p[1..]
  }

  /** An occurrence of an underscore-led pattern in `a + b`, where `b` is empty
      or starts with an underscore, lies wholly inside `a` or wholly inside `b`. */
  lemma {:induction false} ContainsSplit(a: string, b: string, p: string)
    requires UnderscoreLed(p)
    requires |b| == 0 || b[0] == '_'
    ensures Contains(a + b, p) <==> Contains(a, p) || Contains(b, p)
    decreases |a|
  {
    if |a| == 0 {
      assert a + b == b;
      assert !StartsWith(a, p);
    } else {
      assert (a + b)[1..] == a[1..] + b;
      ContainsSplit(a[1..], b, p);
      if |a| >= |p| {
        assert (a + b)[..|p|] == a[..|p|];
      } else if |b| > 0 {
        // an occurrence at the front would straddle the boundary at |a| < |p|
        assert (a + b)[|a|] == '_';
        assert p[|a|] == p[1..][|a| - 1] != '_';
      }
    }
  }

  /** Replacing an underscore-led pattern works piecewise across a boundary
      where `b` is empty or starts with an underscore. */
  lemma {:induction false} ReplaceSplit(a: string, b: string, p: string, r: string)
    requires UnderscoreLed(p)
    requires |b| == 0 || b[0] == '_'
    ensures ReplaceAll(a + b, p, r) == ReplaceAll(a, p, r) + ReplaceAll(b, p, r)
    decreases |a|
  {
    if |a| == 0 {
      assert a + b == b;
    } else if StartsWith(a, p) {
      assert (a + b)[..|p|] == a[..|p|];
      assert (a + b)[|p|..] == a[|p|..] + b;
      ReplaceSplit(a[|p|..], b, p, r);
    } else {
      if |a| >= |p| {
        assert (a + b)[..|p|] == a[..|p|];
      } else if |b| > 0 {
        // an occurrence at the front would straddle the boundary at |a| < |p|
        assert (a + b)[|a|] == '_';
        assert p[|a|] == p[1..][|a| - 1] != '_';
      }
      assert !StartsWith(a + b, p);
      assert (a + b)[1..] == a[1..] + b;
      ReplaceSplit(a[1..], b, p, r);
    }
  }

  /** Removing an underscore-led suffix from a string that does not otherwise
      contain it gives back the string. */
  lemma {:induction false} RemoveSuffixPattern(s: string, p: string)
    requires UnderscoreLed(p) && !Contains(s, p)
    ensures ReplaceAll(s + p, p, "") == s
    decreases |s|
  {
    if |s| == 0 {
      assert s + p == p;
      assert p[|p|..] == [];
    } else {
      assert (s + p)[1..] == s[1..] + p;
      if |s| >= |p| {
        assert s[..|p|] == (s + p)[..|p|];
      } else {
        // an occurrence at the front would straddle the boundary at |s| < |p|
        assert (s + p)[|s|] == '_';
        assert p[|s|] == p[1..][|s| - 1] != '_';
      }
      assert !StartsWith(s + p, p);
      RemoveSuffixPattern(s[1..], p);
      assert s == [s[0]] + s[1..];
    }
  }

  /** Strict code-point (lexicographic) order on strings, as Python compares
      `str` values. */
  predicate Below(a: string, b: string)
    ensures Below(a, b) ==> a != b
    decreases |a|
  {
    (|a| == 0 && |b| > 0)
    || (|a| > 0 && |b| > 0 && (a[0] < b[0] || (a[0] == b[0] && Below(a[1..], b[1..]))))
  }

  lemma {:induction false} BelowIrreflexive(a: string)
    ensures !Below(a, a)
    decreases |a|
  {
    if |a| > 0 { BelowIrreflexive(a[1..]); }
  }

  lemma {:induction false} BelowTransitive(a: string, b: string, c: string)
    requires Below(a, b) && Below(b, c)
    ensures Below(a, c)
    decreases |a|
  {
    if |a| > 0 && a[0] == b[0] == c[0] {
      BelowTransitive(a[1..], b[1..], c[1..]);
    }
  }

  lemma {:induction false} BelowTotal(a: string, b: string)
    requires a != b
    ensures Below(a, b) || Below(b, a)
    decreases |a|
  {
    if |a| > 0 && |b| > 0 && a[0] == b[0] {
      assert a == [a[0]] + a[1..] && b == [b[0]] + b[1..];
      BelowTotal(a[1..], b[1..]);
    }
  }

  /** Strictly ascending, hence also free of duplicates. */
  predicate Ascending(xs: seq<string>)
  {
    forall i, j :: 0 <= i < j < |xs| ==> Below(xs[i], xs[j])
  }

  /** Inserts `x` into an ascending sequence that lacks it. */
  function Insert(xs: seq<string>, x: string): (r: seq<string>)
    requires Ascending(xs) && x !in xs
    ensures Ascending(r)
    ensures |r| == |xs| + 1
    ensures forall y :: y in r <==> y == x || y in xs
    decreases |xs|
  {
    if |xs| == 0 then [x]
    else if Below(x, xs[0]) then
      InsertFront(xs, x)
    else
      BelowTotal(x, xs[0]);
      var rest := Insert(xs[1..], x);
      assert forall y :: y in rest ==> Below(xs[0], y) by {
        forall y | y in rest ensures Below(xs[0], y) {
          if y != x {
            var j :| 0 <= j < |xs[1..]| && xs[1..][j] == y;
            assert xs[j + 1] == y;
          }
        }
      }
      [xs[0]] + rest
  }

  function InsertFront(xs: seq<string>, x: string): (r: seq<string>)
    requires Ascending(xs) && |xs| > 0 && Below(x, xs[0])
    ensures r == [x] + xs && Ascending(r)
  {
    assert forall j :: 0 < j < |xs| ==> Below(x, xs[j]) by {
      forall j | 0 < j < |xs| ensures Below(x, xs[j]) { BelowTransitive(x, xs[0], xs[j]); }
    }
    [x] + xs
  }

  lemma BelowAsymmetric(a: string, b: string)
    ensures !(Below(a, b) && Below(b, a))
  {
    if Below(a, b) && Below(b, a) {
      BelowTransitive(a, b, a);
      BelowIrreflexive(a);
    }
  }

  /** Two ascending sequences with the same elements are the same sequence:
      the sorted order of a set is unique. */
  lemma {:induction false} AscendingUnique(xs: seq<string>, ys: seq<string>)
    requires Ascending(xs) && Ascending(ys)
    requires forall z :: z in xs <==> z in ys
    ensures xs == ys
    decreases |xs| + |ys|
  {
    if |xs| > 0 { assert xs[0] in xs; }
    if |ys| > 0 { assert ys[0] in ys; }
    if |xs| > 0 && |ys| > 0 {
      var j :| 0 <= j < |xs| && xs[j] == ys[0];
      var k :| 0 <= k < |ys| && ys[k] == xs[0];
      BelowAsymmetric(xs[0], ys[0]);
      assert xs[0] == ys[0];
      BelowIrreflexive(xs[0]);
      forall z ensures z in xs[1..] <==> z in ys[1..] {
        if z in xs[1..] {
          var i :| 1 <= i < |xs| && xs[i] == z;
          assert Below(xs[0], xs[i]);
          assert z in ys;
        }
        if z in ys[1..] {
          var i :| 1 <= i < |ys| && ys[i] == z;
          assert Below(ys[0], ys[i]);
          assert z in xs;
        }
      }
      AscendingUnique(xs[1..], ys[1..]);
      assert xs == [xs[0]] + xs[1..] && ys == [ys[0]] + ys[1..];
    }
  }
}
