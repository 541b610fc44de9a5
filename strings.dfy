/** The pieces of Python string and path handling the path builders rely on:
    `str.upper`, `os.path.join`, `os.path.basename`, `str.join`, `str.split`,
    `str.replace` and the `%02d` format. */
module Strings {

  // ---------------------------------------------------------------------------
  // str.upper, on ASCII letters

  function UpperChar(c: char): char {
    if 'a' <= c <= 'z' then (c as int - 32) as char else c
  }

  function Upper(s: string): (u: string)
    ensures |u| == |s|
    ensures forall i :: 0 <= i < |s| ==> u[i] == UpperChar(s[i])
  {
    if s == [] then [] else [UpperChar(s[0])] + Upper(s[1..])
  }

  /** Upper-casing twice is upper-casing once, so names built from an upper-cased
      campaign do not depend on the case the caller used. */
  lemma UpperIdempotent(s: string)
    ensures Upper(Upper(s)) == Upper(s)
  {
    var u := Upper(s);
    forall i | 0 <= i < |s|
      ensures Upper(u)[i] == u[i]
    {
      assert 'a' <= u[i] <= 'z' ==> 'a' <= s[i] <= 'z';
    }
  }

  // ---------------------------------------------------------------------------
  // os.path.join (posixpath, two arguments) and os.path.basename

  function JoinPath(a: string, b: string): string {
    if |b| > 0 && b[0] == '/' then b
    else if a == [] || a[|a| - 1] == '/' then a + b
    else a + "/" + b
  }

  function Basename(p: string): string {
    if p == [] || p[|p| - 1] == '/' then [] else Basename(p[..|p| - 1]) + [p[|p| - 1]]
  }

  /** A path whose last part holds a slash has the basename of that part. */
  lemma {:induction false} BasenameOfSuffix(x: string, p: string)
    requires '/' in p
    ensures Basename(x + p) == Basename(p)
  {
    var n := |p| - 1;
    if p[n] != '/' {
      assert (x + p)[..|x + p| - 1] == x + p[..n];
      assert p == p[..n] + [p[n]];
      assert '/' in p[..n];
      BasenameOfSuffix(x, p[..n]);
    }
  }

  /** Joining any directory onto a path keeps the path's basename. */
  lemma BasenameOfJoinAny(dir: string, p: string)
    ensures Basename(JoinPath(dir, p)) == Basename(p)
  {
    if |p| > 0 && p[0] == '/' {
    } else if '/' in p {
      if dir == [] || dir[|dir| - 1] == '/' {
        BasenameOfSuffix(dir, p);
      } else {
        assert JoinPath(dir, p) == (dir + "/") + p;
        BasenameOfSuffix(dir + "/", p);
      }
    } else {
      BasenameOfJoin(dir, p);
      BasenameOfName([], p);
      assert [] + p == p;
    }
  }

  /** A name with no slash is what `basename` returns for that name alone. */
  lemma {:induction false} BasenameOfName(prefix: string, name: string)
    requires '/' !in name
    requires prefix == [] || prefix[|prefix| - 1] == '/'
    ensures Basename(prefix + name) == name
  {
    if name != [] {
      var n := |name| - 1;
      assert (prefix + name)[..|prefix + name| - 1] == prefix + name[..n];
      BasenameOfName(prefix, name[..n]);
      assert name[..n] + [name[n]] == name;
    } else {
      assert prefix + name == prefix;
    }
  }

  /** Joining a slash-free name onto a directory leaves that name as the basename. */
  lemma BasenameOfJoin(dir: string, name: string)
    requires '/' !in name
    ensures Basename(JoinPath(dir, name)) == name
  {
    if dir == [] || dir[|dir| - 1] == '/' {
      BasenameOfName(dir, name);
    } else {
      assert JoinPath(dir, name) == (dir + "/") + name;
      BasenameOfName(dir + "/", name);
    }
  }

  // ---------------------------------------------------------------------------
  // str.join and str.split

  /** `sep.join(xs)`. */
  function JoinWith(sep: string, xs: seq<string>): string {
    if xs == [] then ""
    else if |xs| == 1 then xs[0]
    else xs[0] + sep + JoinWith(sep, xs[1..])
  }

  /** `''.join(xs)`. */
  function Concat(xs: seq<string>): string {
    JoinWith("", xs)
  }

  /** `s.split(c)` for a one-character separator. */
  function Split(s: string, c: char): (parts: seq<string>)
    ensures |parts| >= 1
  {
    if s == [] then [""]
    else
      var rest := Split(s[1..], c);
      if s[0] == c then [""] + rest else [[s[0]] + rest[0]] + rest[1..]
  }

  lemma {:induction false} SplitPrefix(x: string, c: char, t: string)
    requires c !in x
    ensures Split(x + t, c) == [x + Split(t, c)[0]] + Split(t, c)[1..]
  {
    var tail := Split(t, c);
    if x != [] {
      assert x[0] != c;
      assert (x + t)[0] == x[0] && (x + t)[1..] == x[1..] + t;
      SplitPrefix(x[1..], c, t);
      var rest := Split(x[1..] + t, c);
      assert rest[0] == x[1..] + tail[0] && rest[1..] == tail[1..];
      assert Split(x + t, c) == [[x[0]] + rest[0]] + rest[1..];
      assert [x[0]] + (x[1..] + tail[0]) == x + tail[0];
    } else {
      assert x + t == t && x + tail[0] == tail[0];
      assert [tail[0]] + tail[1..] == tail;
    }
  }

  /** Splitting a `sep.join` on the separator gives the parts back, when no part
      contains the separator. */
  lemma {:induction false} SplitJoin(xs: seq<string>, c: char)
    requires |xs| >= 1
    requires forall k :: 0 <= k < |xs| ==> c !in xs[k]
    ensures Split(JoinWith([c], xs), c) == xs
  {
    if |xs| == 1 {
      SplitPrefix(xs[0], c, "");
      assert xs[0] + "" == xs[0];
    } else {
      var rest := JoinWith([c], xs[1..]);
      SplitJoin(xs[1..], c);
      assert xs[0] + [c] + rest == xs[0] + ([c] + rest);
      SplitPrefix(xs[0], c, [c] + rest);
      assert ([c] + rest)[1..] == rest;
      assert xs[0] + "" == xs[0];
      assert [xs[0]] + xs[1..] == xs;
    }
  }

  /** Joining a part in front of at least one other puts one separator between. */
  lemma JoinCons(sep: string, x: string, xs: seq<string>)
    requires |xs| >= 1
    ensures JoinWith(sep, [x] + xs) == x + sep + JoinWith(sep, xs)
  {
    assert ([x] + xs)[1..] == xs;
  }

  /** Joining a part behind at least one other puts one separator between. */
  lemma {:induction false} JoinSnoc(sep: string, xs: seq<string>, x: string)
    requires |xs| >= 1
    ensures JoinWith(sep, xs + [x]) == JoinWith(sep, xs) + sep + x
  {
    if |xs| == 1 {
      assert (xs + [x])[1..] == [x];
    } else {
      assert (xs + [x])[1..] == xs[1..] + [x];
      JoinSnoc(sep, xs[1..], x);
      assert xs[0] + sep + (JoinWith(sep, xs[1..]) + sep + x) == xs[0] + sep + JoinWith(sep, xs[1..]) + sep + x;
    }
  }

  /** A character found neither in the separator nor in any part is not in the join. */
  lemma {:induction false} JoinAvoids(sep: string, xs: seq<string>, c: char)
    requires c !in sep
    requires forall k :: 0 <= k < |xs| ==> c !in xs[k]
    ensures c !in JoinWith(sep, xs)
  {
    if |xs| > 1 {
      JoinAvoids(sep, xs[1..], c);
      assert c !in xs[0];
    }
  }

  // ---------------------------------------------------------------------------
  // str.replace

  /** Whether `pat` occurs in `s` starting at index `k`. */
  predicate OccursAt(s: string, pat: string, k: int) {
    0 <= k && k + |pat| <= |s| && s[k..k + |pat|] == pat
  }

  /** `s.replace(pat, rep)`: every occurrence, left to right, without overlaps. */
  function ReplaceAll(s: string, pat: string, rep: string): string
    requires |pat| > 0
    decreases |s|
  {
    if |s| < |pat| then s
    else if s[..|pat|] == pat then rep + ReplaceAll(s[|pat|..], pat, rep)
    else [s[0]] + ReplaceAll(s[1..], pat, rep)
  }

  /** Without an occurrence, `replace` changes nothing. */
  lemma {:induction false} ReplaceAbsent(s: string, pat: string, rep: string)
    requires |pat| > 0
    requires forall k :: !OccursAt(s, pat, k)
    ensures ReplaceAll(s, pat, rep) == s
    decreases |s|
  {
    if |s| >= |pat| {
      assert !OccursAt(s, pat, 0);
      forall k | 0 <= k && k + |pat| <= |s| - 1
        ensures !OccursAt(s[1..], pat, k)
      {
        assert s[1..][k..k + |pat|] == s[k + 1..k + 1 + |pat|];
        assert !OccursAt(s, pat, k + 1);
      }
      ReplaceAbsent(s[1..], pat, rep);
      assert [s[0]] + s[1..] == s;
    }
  }

  /** With exactly one occurrence, `replace` puts `rep` in its place. */
  lemma {:induction false} ReplaceSingle(a: string, pat: string, b: string, rep: string)
    requires |pat| > 0
    requires forall k :: 0 <= k < |a| ==> !OccursAt(a + pat + b, pat, k)
    requires forall k :: !OccursAt(b, pat, k)
    ensures ReplaceAll(a + pat + b, pat, rep) == a + rep + b
    decreases |a|
  {
    var s := a + pat + b;
    if a == [] {
      assert s[..|pat|] == pat;
      assert s[|pat|..] == b;
      ReplaceAbsent(b, pat, rep);
    } else {
      assert !OccursAt(s, pat, 0);
      assert s[1..] == a[1..] + pat + b;
      forall k | 0 <= k < |a[1..]|
        ensures !OccursAt(a[1..] + pat + b, pat, k)
      {
        if k + |pat| <= |s| - 1 {
          assert s[1..][k..k + |pat|] == s[k + 1..k + 1 + |pat|];
        }
        assert !OccursAt(s, pat, k + 1);
      }
      ReplaceSingle(a[1..], pat, b, rep);
      assert [a[0]] + (a[1..] + rep + b) == a + rep + b;
    }
  }

  // ---------------------------------------------------------------------------
  // The `%02d` format

  function DigitChar(d: nat): char
    requires d < 10
  {
    "0123456789"[d]
  }

  /** Decimal digits of a natural number, without leading zeros. */
  function Digits(n: nat): (s: string)
    ensures |s| >= 1
  {
    if n < 10 then [DigitChar(n)] else Digits(n / 10) + [DigitChar(n % 10)]
  }

  /** `'%02d' % n`: at least two characters, zero-padded, the sign counting toward the width. */
  function Format02(n: int): string {
    if n < 0 then "-" + Digits(-n)
    else if n < 10 then "0" + Digits(n)
    else Digits(n)
  }

  /** The value of a string of decimal digits; used to read a number back. */
  function ParseDigits(s: string): int {
    if s == [] then 0
    else ParseDigits(s[..|s| - 1]) * 10 + ((s[|s| - 1] as int) - ('0' as int))
  }

  lemma {:induction false} DigitsRoundTrip(n: nat)
    ensures ParseDigits(Digits(n)) == n
  {
    if n >= 10 {
      DigitsRoundTrip(n / 10);
      var s := Digits(n / 10) + [DigitChar(n % 10)];
      assert s[..|s| - 1] == Digits(n / 10);
    }
  }

  /** A `%02d` field of a natural number holds only decimal digits. */
  lemma {:induction false} Format02Digits(n: nat)
    ensures forall k :: 0 <= k < |Format02(n)| ==> '0' <= Format02(n)[k] <= '9'
  {
    DigitsAreDigits(n);
  }

  lemma {:induction false} DigitsAreDigits(n: nat)
    ensures forall k :: 0 <= k < |Digits(n)| ==> '0' <= Digits(n)[k] <= '9'
  {
    if n >= 10 {
      DigitsAreDigits(n / 10);
    }
  }

  /** Reading a `%02d` field back gives the number, and below 100 the field has width two. */
  lemma Format02RoundTrip(n: nat)
    ensures ParseDigits(Format02(n)) == n
    ensures n < 100 ==> |Format02(n)| == 2
  {
    DigitsRoundTrip(n);
    if n < 10 {
      var s := "0" + Digits(n);
      assert s[..|s| - 1] == "0";
      assert ParseDigits("0") == 0 by {
        assert "0"[..0] == "";
      }
    } else if n < 100 {
      assert Digits(n / 10) == [DigitChar(n / 10)];
    }
  }
}
