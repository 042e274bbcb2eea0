/**
 * The Python string operations the core relies on, on `seq<char>`: `str.lower`,
 * the `in` substring test, `str.rfind`, `os.path.basename`, `os.path.splitext`,
 * `str.strip` and `str.split`.
 */
module Text {

  // ---------------------------------------------------------------------------
  // Case

  predicate IsUpper(ch: char)
  {
    'A' <= ch <= 'Z'
  }

  /** `str.lower()` on one character (ASCII letters only). */
  function LowerChar(ch: char): (r: char)
    ensures !IsUpper(r)
    ensures !IsUpper(ch) ==> r == ch
  {
    if IsUpper(ch) then (ch as int + 32) as char else ch
  }

  /** `str.lower()`. */
  function Lower(s: string): (r: string)
    ensures |r| == |s|
    ensures forall i | 0 <= i < |s| :: r[i] == LowerChar(s[i])
  {
    if s == [] then [] else [LowerChar(s[0])] + Lower(s[1..])
  }

  /** Lowering twice is lowering once, and a lowered string has no capital letter. */
  lemma LowerIdempotent(s: string)
    ensures Lower(Lower(s)) == Lower(s)
    ensures forall i | 0 <= i < |s| :: !IsUpper(Lower(s)[i])
  {
  }

  // ---------------------------------------------------------------------------
  // Searching

  /** Python's `sub in s` on strings. */
  predicate Contains(s: string, sub: string)
    decreases |s|
  {
    sub <= s || (s != [] && Contains(s[1..], sub))
  }

  /** Every character of a substring that occurs in `s` occurs in `s`. */
  lemma {:induction false} ContainsChars(s: string, sub: string, k: nat)
    requires k < |sub|
    ensures Contains(s, sub) ==> sub[k] in s
    decreases |s|
  {
    if sub <= s {
      assert s[k] == sub[k];
    } else if s != [] {
      ContainsChars(s[1..], sub, k);
      assert Contains(s[1..], sub) ==> sub[k] in s[1..];
    }
  }

  /** `str.rfind(ch)`: the last index holding `ch`, or -1. */
  function RFind(s: string, ch: char): (i: int)
    ensures -1 <= i < |s|
    ensures 0 <= i ==> s[i] == ch
    ensures forall k | i < k < |s| :: s[k] != ch
  {
    if s == [] then -1
    else if s[|s| - 1] == ch then |s| - 1
    else RFind(s[..|s| - 1], ch)
  }

  /** The last occurrence, characterised. */
  lemma RFindIs(s: string, ch: char, i: int)
    requires -1 <= i < |s|
    requires 0 <= i ==> s[i] == ch
    requires forall k | i < k < |s| :: s[k] != ch
    ensures RFind(s, ch) == i
  {
  }

  /** `posixpath.basename`: everything after the last '/'. */
  function Basename(p: string): (b: string)
    ensures '/' !in b
    ensures |b| <= |p| && p[|p| - |b|..] == b
    ensures |b| == |p| || p[|p| - |b| - 1] == '/'
  {
    p[RFind(p, '/') + 1..]
  }

  /** The basename of `dir/name` is `name`: the directory never shows. */
  lemma BasenameOfJoin(dir: string, name: string)
    requires '/' !in name
    ensures Basename(dir + "/" + name) == name
  {
    var p := dir + "/" + name;
    assert p[|dir|] == '/';
    forall k | |dir| < k < |p|
      ensures p[k] != '/'
    {
      assert p[k] == name[k - |dir| - 1];
    }
    RFindIs(p, '/', |dir|);
    assert p[|dir| + 1..] == name;
  }

  // ---------------------------------------------------------------------------
  // os.path.splitext

  predicate AllDots(s: string)
  {
    forall k | 0 <= k < |s| :: s[k] == '.'
  }

  /**
   * `posixpath.splitext`: the extension starts at the last '.', provided it comes after
   * the last '/' and the basename has something other than dots before it.
   */
  function SplitExt(p: string): (parts: (string, string))
  {
    var sep := RFind(p, '/');
    var dot := RFind(p, '.');
    if dot > sep && !AllDots(p[sep + 1..dot]) then (p[..dot], p[dot..]) else (p, "")
  }

  /** The extension part of `splitext`. */
  function Ext(p: string): string
  {
    SplitExt(p).1
  }

  /**
   * The two parts put back together give the path; the extension is empty or one dot
   * followed by neither a dot nor a '/'.
   */
  lemma SplitExtParts(p: string)
    ensures SplitExt(p).0 + SplitExt(p).1 == p
    ensures var e := SplitExt(p).1;
      e == "" || (e[0] == '.' && '.' !in e[1..] && '/' !in e)
  {
    var sep := RFind(p, '/');
    var dot := RFind(p, '.');
    if dot > sep && !AllDots(p[sep + 1..dot]) {
      assert SplitExt(p) == (p[..dot], p[dot..]);
      assert p[..dot] + p[dot..] == p;
      SuffixClean(p, dot, sep);
    } else {
      assert SplitExt(p) == (p, "");
    }
  }

  /** The text from the last '.' on, when no '/' follows that '.', holds neither another '.' nor a '/'. */
  lemma SuffixClean(p: string, dot: int, sep: int)
    requires dot == RFind(p, '.') && sep == RFind(p, '/') && 0 <= sep + 1 <= dot
    ensures var e := p[dot..]; e[0] == '.' && '.' !in e[1..] && '/' !in e
  {
    var e := p[dot..];
    assert e[0] == p[dot];
    forall x | x in e
      ensures x != '/' && (x == '.' ==> x == e[0])
    {
      var j :| 0 <= j < |e| && e[j] == x;
      assert e[j] == p[dot + j];
    }
    forall x | x in e[1..]
      ensures x != '.'
    {
      var j :| 0 <= j < |e[1..]| && e[1..][j] == x;
      assert e[1..][j] == p[dot + 1 + j];
    }
  }

  /** Examples: the suffix is kept as written; leading dots and a directory's dot do not count. */
  lemma SplitExtExamples()
    ensures Ext("SCAN.PNG") == ".PNG"
    ensures Ext("archive.tar.gz") == ".gz"
    ensures Ext(".hidden") == ""
    ensures Ext("dir.d/file") == ""
    ensures Ext("noext") == ""
  {
    RFindIs("SCAN.PNG", '/', -1);
    RFindIs("SCAN.PNG", '.', 4);
    assert !AllDots("SCAN.PNG"[0..4]) by { assert "SCAN.PNG"[0] == 'S'; }
    RFindIs("archive.tar.gz", '/', -1);
    RFindIs("archive.tar.gz", '.', 11);
    assert !AllDots("archive.tar.gz"[0..11]) by { assert "archive.tar.gz"[0] == 'a'; }
    RFindIs(".hidden", '/', -1);
    RFindIs(".hidden", '.', 0);
    RFindIs("dir.d/file", '/', 5);
    RFindIs("dir.d/file", '.', 3);
    RFindIs("noext", '.', -1);
  }

  // ---------------------------------------------------------------------------
  // str.strip

  /** The characters `str.strip()` removes (Python's `str.isspace`). */
  predicate IsSpace(ch: char)
  {
    || ('\t' <= ch <= '\r')                   // tab, line feed, vertical tab, form feed, carriage return
    || ('\U{1C}' <= ch <= '\U{1F}')            // the four separator controls
    || ch == ' ' || ch == '\U{85}' || ch == '\U{A0}' || ch == '\U{1680}'
    || ('\U{2000}' <= ch <= '\U{200A}')
    || ch == '\U{2028}' || ch == '\U{2029}' || ch == '\U{202F}' || ch == '\U{205F}' || ch == '\U{3000}'
  }

  predicate AllSpace(s: string)
  {
    forall k | 0 <= k < |s| :: IsSpace(s[k])
  }

  function StripLeft(s: string): string
  {
    if s != [] && IsSpace(s[0]) then StripLeft(s[1..]) else s
  }

  function StripRight(s: string): string
  {
    if s != [] && IsSpace(s[|s| - 1]) then StripRight(s[..|s| - 1]) else s
  }

  /** `str.strip()`. */
  function Strip(s: string): string
  {
    StripRight(StripLeft(s))
  }

  /** Leading whitespace is cut off, and nothing else. */
  lemma {:induction false} StripLeftShape(s: string)
    ensures var r := StripLeft(s);
      && |r| <= |s| && r == s[|s| - |r|..] && AllSpace(s[..|s| - |r|])
      && (r == [] || !IsSpace(r[0]))
  {
    if s != [] && IsSpace(s[0]) {
      StripLeftShape(s[1..]);
      var r := StripLeft(s[1..]);
      assert s[1..][..|s| - 1 - |r|] == s[1..|s| - |r|];
      forall k | 0 <= k < |s| - |r|
        ensures IsSpace(s[k])
      {
        if k > 0 {
          assert s[k] == s[1..][k - 1];
        }
      }
    }
  }

  /** Trailing whitespace is cut off, and nothing else. */
  lemma {:induction false} StripRightShape(s: string)
    ensures var r := StripRight(s);
      && |r| <= |s| && r == s[..|r|] && AllSpace(s[|r|..])
      && (r == [] || !IsSpace(r[|r| - 1]))
  {
    if s != [] && IsSpace(s[|s| - 1]) {
      var p := s[..|s| - 1];
      StripRightShape(p);
      var r := StripRight(p);
      forall k | |r| <= k < |s|
        ensures IsSpace(s[k])
      {
        if k < |s| - 1 {
          assert s[k] == p[k];
        }
      }
    }
  }

  /** Stripping a string without leading whitespace keeps that so. */
  lemma {:induction false} StripRightKeepsFront(s: string)
    requires s == [] || !IsSpace(s[0])
    ensures var r := StripRight(s); r == [] || !IsSpace(r[0])
  {
    StripRightShape(s);
  }

  /**
   * `strip()` returns the middle of the string: what it cuts from either end is
   * whitespace, and the result neither starts nor ends with whitespace.
   */
  lemma StripShape(s: string)
    ensures var r := Strip(s);
      exists i | 0 <= i <= |s| - |r| ::
        && r == s[i..i + |r|] && AllSpace(s[..i]) && AllSpace(s[i + |r|..])
        && (r == [] || (!IsSpace(r[0]) && !IsSpace(r[|r| - 1])))
  {
    var l := StripLeft(s);
    StripLeftShape(s);
    StripRightShape(l);
    StripRightKeepsFront(l);
    var r := StripRight(l);
    var i := |s| - |l|;
    assert r == s[i..i + |r|];
    assert s[i + |r|..] == l[|r|..];
  }

  /** Stripping twice is stripping once. */
  lemma StripIdempotent(s: string)
    ensures Strip(Strip(s)) == Strip(s)
  {
    var r := Strip(s);
    StripShape(s);
    assert StripLeft(r) == r;
    assert StripRight(r) == r;
  }

  // ---------------------------------------------------------------------------
  // str.split and str.join on one separator character

  /** `s.index(ch)` where it exists, -1 otherwise. */
  function Find(s: string, ch: char): (i: int)
    ensures -1 <= i < |s|
    ensures 0 <= i ==> s[i] == ch
    ensures forall k | 0 <= k < |s| && (i < 0 || k < i) :: s[k] != ch
  {
    if s == [] then -1
    else if s[0] == ch then 0
    else var j := Find(s[1..], ch); if j < 0 then -1 else j + 1
  }

  /** `s.split(sep)` for a one-character separator: every occurrence splits, empty pieces kept. */
  function Split(s: string, sep: char): (parts: seq<string>)
    ensures |parts| >= 1
    decreases |s|
  {
    var i := Find(s, sep);
    if i < 0 then [s] else [s[..i]] + Split(s[i + 1..], sep)
  }

  /** `sep.join(parts)`. */
  function Join(parts: seq<string>, sep: char): string
  {
    if parts == [] then ""
    else if |parts| == 1 then parts[0]
    else parts[0] + [sep] + Join(parts[1..], sep)
  }

  /** The number of occurrences of `ch` in `s`. */
  function Count(s: string, ch: char): nat
  {
    if s == [] then 0 else (if s[0] == ch then 1 else 0) + Count(s[1..], ch)
  }

  lemma {:induction false} CountAppend(a: string, b: string, ch: char)
    ensures Count(a + b, ch) == Count(a, ch) + Count(b, ch)
  {
    if a != [] {
      assert (a + b)[1..] == a[1..] + b;
      CountAppend(a[1..], b, ch);
    } else {
      assert a + b == b;
    }
  }

  lemma {:induction false} CountNone(s: string, ch: char)
    requires ch !in s
    ensures Count(s, ch) == 0
  {
    if s != [] {
      CountNone(s[1..], ch);
    }
  }

  /** The first piece of a split, and the split of the rest. */
  lemma SplitStep(s: string, sep: char)
    requires 0 <= Find(s, sep)
    ensures var i := Find(s, sep);
      && Split(s, sep) == [s[..i]] + Split(s[i + 1..], sep)
      && s == s[..i] + [sep] + s[i + 1..]
      && sep !in s[..i]
  {
  }

  /** Splitting and joining again gives the string back. */
  lemma {:induction false} SplitJoin(s: string, sep: char)
    ensures Join(Split(s, sep), sep) == s
    decreases |s|
  {
    var i := Find(s, sep);
    if 0 <= i {
      SplitStep(s, sep);
      SplitJoin(s[i + 1..], sep);
      var parts := Split(s, sep);
      assert parts[1..] == Split(s[i + 1..], sep);
    }
  }

  /** A split has one piece more than the string has separators. */
  lemma {:induction false} SplitCount(s: string, sep: char)
    ensures |Split(s, sep)| == Count(s, sep) + 1
    decreases |s|
  {
    var i := Find(s, sep);
    if i < 0 {
      CountNone(s, sep);
    } else {
      SplitStep(s, sep);
      SplitCount(s[i + 1..], sep);
      CountAppend(s[..i] + [sep], s[i + 1..], sep);
      CountAppend(s[..i], [sep], sep);
      CountNone(s[..i], sep);
      assert Count([sep], sep) == 1 by { assert [sep][1..] == []; }
    }
  }

  /** No piece of a split holds the separator. */
  lemma {:induction false} SplitPieces(s: string, sep: char)
    ensures forall k | 0 <= k < |Split(s, sep)| :: sep !in Split(s, sep)[k]
    decreases |s|
  {
    var i := Find(s, sep);
    if 0 <= i {
      SplitStep(s, sep);
      SplitPieces(s[i + 1..], sep);
      var parts := Split(s, sep);
      forall k | 0 <= k < |parts|
        ensures sep !in parts[k]
      {
        if k > 0 {
          assert parts[k] == Split(s[i + 1..], sep)[k - 1];
        }
      }
    }
  }

  /** Joining pieces that hold no separator and splitting again gives the pieces back. */
  lemma {:induction false} JoinSplit(parts: seq<string>, sep: char)
    requires parts != []
    requires forall k | 0 <= k < |parts| :: sep !in parts[k]
    ensures Split(Join(parts, sep), sep) == parts
  {
    var s := Join(parts, sep);
    if |parts| == 1 {
      assert Find(s, sep) < 0;
    } else {
      JoinSplit(parts[1..], sep);
      var rest := Join(parts[1..], sep);
      assert s == parts[0] + [sep] + rest;
      assert s[|parts[0]|] == sep;
      forall k | 0 <= k < |parts[0]|
        ensures s[k] != sep
      {
        assert s[k] == parts[0][k];
      }
      var i := Find(s, sep);
      assert i == |parts[0]|;
      assert s[..i] == parts[0];
      assert s[i + 1..] == rest;
    }
  }

  // ---------------------------------------------------------------------------
  // str(n) for a natural number

  function DigitChar(d: nat): (ch: char)
    requires d < 10
    ensures '0' <= ch <= '9' && ch as int - '0' as int == d
  {
    ('0' as int + d) as char
  }

  /** `str(n)`: the decimal digits of `n`, without leading zeros. */
  function Decimal(n: nat): string
  {
    if n < 10 then [DigitChar(n)] else Decimal(n / 10) + [DigitChar(n % 10)]
  }

  /** One more digit on the right. */
  lemma DecimalStep(m: nat, d: nat)
    requires 0 < m && d < 10
    ensures Decimal(10 * m + d) == Decimal(m) + [DigitChar(d)]
  {
  }

  predicate IsDigit(ch: char)
  {
    '0' <= ch <= '9'
  }

  /** `int(s)` for a string of decimal digits. */
  function DigitsValue(s: string): nat
    requires forall k | 0 <= k < |s| :: IsDigit(s[k])
  {
    if s == [] then 0 else assert IsDigit(s[|s| - 1]); 10 * DigitsValue(s[..|s| - 1]) + (s[|s| - 1] as int - '0' as int)
  }

  /** `str(n)` is a non-empty string of digits with no leading zero, and `int(str(n)) == n`. */
  lemma {:induction false} DecimalRoundTrip(n: nat)
    ensures var s := Decimal(n);
      && 0 < |s|
      && (forall k | 0 <= k < |s| :: IsDigit(s[k]))
      && (1 < |s| ==> s[0] != '0')
      && DigitsValue(s) == n
  {
    if 10 <= n {
      DecimalRoundTrip(n / 10);
      var s := Decimal(n);
      assert s[..|s| - 1] == Decimal(n / 10);
    }
  }
}
