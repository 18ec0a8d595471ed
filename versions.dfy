/** Client versions as the server compares them (`packaging.version.Version`
    restricted to plain releases): a version is its dotted-decimal release
    tuple; trailing zero components do not count, so "1.2" and "1.2.0" are
    the same version; otherwise tuples compare lexicographically, a proper
    prefix being the smaller. */
module Versions {
  import opened Js

  /** The release tuple, most significant component first. */
  type Release = seq<nat>

  function DigitValue(c: char): nat
    requires '0' <= c <= '9'
  {
    (c as int - '0' as int) as nat
  }

  /** Reads `s` left to right: `done` are the components already closed,
      `cur` the value of the digits read since the last dot and `width`
      their number. A component must have at least one digit. */
  function Scan(s: string, done: Release, cur: nat, width: nat): (r: Option<Release>)
    ensures r.Some? ==> |r.value| > |done| && r.value[..|done|] == done
    decreases |s|
  {
    if |s| == 0 then
      if width == 0 then None else Some(done + [cur])
    else if s[0] == '.' then
      if width == 0 then None else Scan(s[1..], done + [cur], 0, 0)
    else if '0' <= s[0] <= '9' then
      Scan(s[1..], done, cur * 10 + DigitValue(s[0]), width + 1)
    else None
  }

  /** A header value as a release: one or more dot-separated runs of digits. */
  function ParseRelease(s: string): (r: Option<Release>)
    ensures r.Some? ==> |r.value| > 0
  {
    Scan(s, [], 0, 0)
  }

  /** Dotted decimal text of a release, as the client writes its version. */
  function Render(r: Release): (s: string)
    requires |r| > 0
    ensures |s| > 0
    decreases |r|
  {
    if |r| == 1 then NatToString(r[0]) else NatToString(r[0]) + "." + Render(r[1..])
  }

  predicate AllDigits(d: string)
  {
    forall i :: 0 <= i < |d| ==> '0' <= d[i] <= '9'
  }

  /** The value accumulated by reading the digits `d` after `cur`. */
  function Fold(cur: nat, d: string): nat
    requires AllDigits(d)
    decreases |d|
  {
    if |d| == 0 then cur else Fold(cur * 10 + DigitValue(d[0]), d[1..])
  }

  lemma {:induction false} FoldSnoc(cur: nat, d: string, c: char)
    requires AllDigits(d) && '0' <= c <= '9'
    ensures AllDigits(d + [c])
    ensures Fold(cur, d + [c]) == Fold(cur, d) * 10 + DigitValue(c)
    decreases |d|
  {
    assert AllDigits(d + [c]);
    if |d| > 0 {
      assert (d + [c])[1..] == d[1..] + [c];
      FoldSnoc(cur * 10 + DigitValue(d[0]), d[1..], c);
    }
  }

  lemma {:induction false} FoldNatToString(n: nat)
    ensures AllDigits(NatToString(n)) && Fold(0, NatToString(n)) == n
    decreases n
  {
    if n >= 10 {
      FoldNatToString(n / 10);
      FoldSnoc(0, NatToString(n / 10), DigitChar(n % 10));
    }
  }

  /** Scanning a run of digits only accumulates them into the open component. */
  lemma {:induction false} ScanDigits(d: string, rest: string, done: Release, cur: nat, width: nat)
    requires AllDigits(d)
    ensures Scan(d + rest, done, cur, width) == Scan(rest, done, Fold(cur, d), width + |d|)
    decreases |d|
  {
    if |d| > 0 {
      assert (d + rest)[0] == d[0];
      assert (d + rest)[1..] == d[1..] + rest;
      ScanDigits(d[1..], rest, done, cur * 10 + DigitValue(d[0]), width + 1);
    } else {
      assert d + rest == rest;
    }
  }

  /** A dot closes the open component. */
  lemma ScanDot(rest: string, done: Release, cur: nat, width: nat)
    requires width > 0
    ensures Scan("." + rest, done, cur, width) == Scan(rest, done + [cur], 0, 0)
  {
    assert ("." + rest)[1..] == rest;
  }

  lemma {:induction false} ScanRender(r: Release, done: Release)
    requires |r| > 0
    ensures Scan(Render(r), done, 0, 0) == Some(done + r)
    decreases |r|
  {
    var head := NatToString(r[0]);
    FoldNatToString(r[0]);
    if |r| == 1 {
      ScanDigits(head, "", done, 0, 0);
      assert head + "" == head;
      assert done + [r[0]] == done + r;
    } else {
      var tail := "." + Render(r[1..]);
      calc {
        Scan(Render(r), done, 0, 0);
        { assert Render(r) == head + tail; }
        Scan(head + tail, done, 0, 0);
        { ScanDigits(head, tail, done, 0, 0); }
        Scan(tail, done, r[0], |head|);
        { ScanDot(Render(r[1..]), done, r[0], |head|); }
        Scan(Render(r[1..]), done + [r[0]], 0, 0);
        { ScanRender(r[1..], done + [r[0]]); }
        Some(done + [r[0]] + r[1..]);
        { assert done + [r[0]] + r[1..] == done + r; }
        Some(done + r);
      }
    }
  }

  /** Parsing what `Render` writes gives the release back. */
  lemma ParseRender(r: Release)
    requires |r| > 0
    ensures ParseRelease(Render(r)) == Some(r)
  {
    ScanRender(r, []);
  }

  /** The release with its trailing zero components removed. */
  function Trim(r: Release): (t: Release)
    ensures |t| <= |r| && t == r[..|t|]
    ensures |t| == 0 || t[|t| - 1] != 0
    ensures forall i :: |t| <= i < |r| ==> r[i] == 0
  {
    if |r| == 0 then []
    else if r[|r| - 1] == 0 then Trim(r[..|r| - 1])
    else r
  }

  /** Lexicographic order on tuples, a proper prefix being the smaller. */
  predicate LexLess(a: Release, b: Release)
    decreases |a|
  {
    |b| > 0 && (|a| == 0 || a[0] < b[0] || (a[0] == b[0] && LexLess(a[1..], b[1..])))
  }

  /** `Version(a) < Version(b)`. */
  predicate Less(a: Release, b: Release)
  {
    LexLess(Trim(a), Trim(b))
  }

  /** `Version(a) == Version(b)`. */
  predicate Same(a: Release, b: Release)
  {
    Trim(a) == Trim(b)
  }

  lemma {:induction false} LexLessIrreflexive(a: Release)
    ensures !LexLess(a, a)
    decreases |a|
  {
    if |a| > 0 {
      LexLessIrreflexive(a[1..]);
    }
  }

  lemma {:induction false} LexLessTransitive(a: Release, b: Release, c: Release)
    requires LexLess(a, b) && LexLess(b, c)
    ensures LexLess(a, c)
    decreases |a|
  {
    if |a| > 0 && a[0] == b[0] && b[0] == c[0] {
      LexLessTransitive(a[1..], b[1..], c[1..]);
    }
  }

  /** Any two tuples are equal or ordered one way round. */
  lemma {:induction false} LexLessTotal(a: Release, b: Release)
    ensures a == b || LexLess(a, b) || LexLess(b, a)
    decreases |a|
  {
    if |a| > 0 && |b| > 0 && a[0] == b[0] {
      LexLessTotal(a[1..], b[1..]);
      if a[1..] == b[1..] {
        assert a == [a[0]] + a[1..] && b == [b[0]] + b[1..];
      }
    }
  }

  lemma {:induction false} LexLessAsymmetric(a: Release, b: Release)
    requires LexLess(a, b)
    ensures !LexLess(b, a)
    decreases |a|
  {
    if |a| > 0 && a[0] == b[0] {
      LexLessAsymmetric(a[1..], b[1..]);
    }
  }

  /** `<` on versions is a strict total order modulo trailing zeros: exactly
      one of a < b, a == b, b < a holds. */
  lemma LessTrichotomy(a: Release, b: Release)
    ensures Less(a, b) || Same(a, b) || Less(b, a)
    ensures !(Less(a, b) && Same(a, b)) && !(Less(a, b) && Less(b, a)) && !(Same(a, b) && Less(b, a))
  {
    LexLessTotal(Trim(a), Trim(b));
    if Less(a, b) {
      LexLessAsymmetric(Trim(a), Trim(b));
      if Same(a, b) {
        LexLessIrreflexive(Trim(a));
      }
    }
    if Less(b, a) && Same(a, b) {
      LexLessIrreflexive(Trim(a));
    }
  }

  lemma LessTransitive(a: Release, b: Release, c: Release)
    requires Less(a, b) && Less(b, c)
    ensures Less(a, c)
  {
    LexLessTransitive(Trim(a), Trim(b), Trim(c));
  }

  /** Appending zero components never changes a version. */
  lemma PaddingIsSame(r: Release, k: nat)
    ensures Same(r + seq(k, _ => 0), r)
  {
    TrimPadded(r, k);
  }

  lemma {:induction false} TrimPadded(r: Release, k: nat)
    ensures Trim(r + seq(k, _ => 0)) == Trim(r)
    decreases k
  {
    if k > 0 {
      var p := r + seq(k, _ => 0);
      assert p[|p| - 1] == 0;
      assert p[..|p| - 1] == r + seq(k - 1, _ => 0);
      TrimPadded(r, k - 1);
    } else {
      assert r + seq(0, _ => 0) == r;
    }
  }
}
