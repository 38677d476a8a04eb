/** The Python `str` operations the core relies on: `isspace`/`strip`, `split`/`join`,
    `replace`, `startswith`/`endswith`, `os.path.basename` and `str(int)`. */
module PyText {

  // ---------------------------------------------------------------------------
  // Whitespace and strip

  /** The characters for which Python's `str.isspace()` holds; `str.strip()` removes exactly these. */
  predicate IsSpace(c: char) {
    || c == ' '
    || ('\t' <= c <= '\r')
    || ('\U{1C}' <= c <= '\U{1F}')
    || c == '\U{85}' || c == '\U{A0}' || c == '\U{1680}'
    || ('\U{2000}' <= c <= '\U{200A}')
    || c == '\U{2028}' || c == '\U{2029}' || c == '\U{202F}' || c == '\U{205F}' || c == '\U{3000}'
  }

  predicate AllSpace(s: string) {
    forall i :: 0 <= i < |s| ==> IsSpace(s[i])
  }

  /** No whitespace at either end: what `strip()` leaves behind. */
  predicate Trimmed(s: string) {
    s == [] || (!IsSpace(s[0]) && !IsSpace(s[|s| - 1]))
  }

  /** Length of the whitespace run at the start of `s`. */
  function LeadingSpaces(s: string): (n: nat)
    ensures n <= |s|
    ensures forall i :: 0 <= i < n ==> IsSpace(s[i])
    ensures n < |s| ==> !IsSpace(s[n])
  {
    if s != [] && IsSpace(s[0]) then 1 + LeadingSpaces(s[1..]) else 0
  }

  /** Length of the whitespace run at the end of `s`. */
  function TrailingSpaces(s: string): (n: nat)
    ensures n <= |s|
    ensures forall i :: |s| - n <= i < |s| ==> IsSpace(s[i])
    ensures n < |s| ==> !IsSpace(s[|s| - 1 - n])
  {
    if s != [] && IsSpace(s[|s| - 1]) then 1 + TrailingSpaces(s[..|s| - 1]) else 0
  }

  /** `s.rstrip()` */
  function RStrip(s: string): string {
    s[..|s| - TrailingSpaces(s)]
  }

  /** `s.lstrip()` */
  function LStrip(s: string): string {
    s[LeadingSpaces(s)..]
  }

  /** `s.strip()`: the result has no whitespace at either end, is empty exactly when `s`
      is blank, and leaves an already trimmed string alone. */
  function Strip(s: string): (r: string)
    ensures |r| <= |s|
    ensures Trimmed(r)
    ensures r == [] <==> AllSpace(s)
    ensures Trimmed(s) ==> r == s
  {
    var t := RStrip(s);
    var r := LStrip(t);
    StripFacts(s);
    r
  }

  /** The facts behind Strip's contract, one clause at a time. */
  lemma StripFacts(s: string)
    ensures var r := LStrip(RStrip(s));
            && |r| <= |s| && Trimmed(r) && (r == [] <==> AllSpace(s)) && (Trimmed(s) ==> r == s)
  {
    var nT := TrailingSpaces(s);
    var t := s[..|s| - nT];
    var nL := LeadingSpaces(t);
    var r := t[nL..];
    assert RStrip(s) == t && LStrip(t) == r;
    if r != [] {
      assert r[0] == t[nL] && !IsSpace(t[nL]);
      assert r[|r| - 1] == s[|s| - 1 - nT] && !IsSpace(s[|s| - 1 - nT]);
    }
    if r == [] {
      forall i | 0 <= i < |s| ensures IsSpace(s[i]) {
        if i < |t| { assert s[i] == t[i]; }
      }
    }
    if s != [] && Trimmed(s) {
      assert !IsSpace(s[|s| - 1]);
      assert nT == 0;
      assert t == s;
      assert !IsSpace(t[0]);
      assert nL == 0;
    }
  }

  /** Right-stripping a concatenation whose tail has a non-space character only strips the tail. */
  lemma RStripAppendVisible(a: string, b: string)
    requires !AllSpace(b)
    ensures RStrip(a + b) == a + RStrip(b)
  {
    var n := TrailingSpaces(b);
    TrailingSpacesAppend(a, b);
    assert RStrip(a + b) == (a + b)[..|a| + |b| - n];
    assert (a + b)[..|a| + |b| - n] == a + b[..|b| - n];
  }

  /** Right-stripping a concatenation whose tail is all whitespace drops the tail entirely. */
  lemma RStripAppendBlank(a: string, b: string)
    requires AllSpace(b)
    ensures RStrip(a + b) == RStrip(a)
  {
    var m := TrailingSpaces(a);
    var k := TrailingSpaces(a + b);
    assert k == m + |b| by {
      TrailingSpacesUnique(a + b, m + |b|);
    }
    assert (a + b)[..|a| + |b| - k] == a[..|a| - m];
  }

  lemma TrailingSpacesAppend(a: string, b: string)
    requires !AllSpace(b)
    ensures TrailingSpaces(a + b) == TrailingSpaces(b)
  {
    var n := TrailingSpaces(b);
    assert n < |b|;
    TrailingSpacesUnique(a + b, n);
  }

  /** A count of trailing spaces followed by a non-space (or the start) is TrailingSpaces. */
  lemma TrailingSpacesUnique(s: string, n: nat)
    requires n <= |s|
    requires forall i :: |s| - n <= i < |s| ==> IsSpace(s[i])
    requires n < |s| ==> !IsSpace(s[|s| - 1 - n])
    ensures TrailingSpaces(s) == n
  {
  }

  // ---------------------------------------------------------------------------
  // Prefixes, suffixes, occurrences

  /** `s.startswith(p)` */
  predicate StartsWith(s: string, p: string) {
    |p| <= |s| && s[..|p|] == p
  }

  /** `s.endswith(p)` */
  predicate EndsWith(s: string, p: string) {
    |p| <= |s| && s[|s| - |p|..] == p
  }

  /** `p in s` for a non-empty `p`. */
  predicate Contains(s: string, p: string)
    requires p != []
    decreases |s|
  {
    |p| <= |s| && (s[..|p|] == p || Contains(s[1..], p))
  }

  /** Number of occurrences of `c` in `s` (`s.count(c)`). */
  function Count(s: string, c: char): nat
  {
    if s == [] then 0 else (if s[0] == c then 1 else 0) + Count(s[1..], c)
  }

  // ---------------------------------------------------------------------------
  // split, join, replace

  /** `s.split(sep)` for a non-empty separator: cut at every occurrence found scanning
      left to right, so there is always at least one part. */
  function Split(s: string, sep: string): (parts: seq<string>)
    requires sep != []
    ensures |parts| >= 1
    decreases |s|
  {
    if |s| < |sep| then [s]
    else if s[..|sep|] == sep then [[]] + Split(s[|sep|..], sep)
    else
      var rest := Split(s[1..], sep);
      [[s[0]] + rest[0]] + rest[1..]
  }

  /** `sep.join(parts)` */
  function Join(parts: seq<string>, sep: string): string
  {
    if |parts| == 0 then []
    else if |parts| == 1 then parts[0]
    else parts[0] + sep + Join(parts[1..], sep)
  }

  /** `s.replace(p, r)` for a non-empty `p`: every occurrence found scanning left to right
      is replaced, and the replacement text is never rescanned. */
  function ReplaceAll(s: string, p: string, r: string): string
    requires p != []
    decreases |s|
  {
    if |s| < |p| then s
    else if s[..|p|] == p then r + ReplaceAll(s[|p|..], p, r)
    else [s[0]] + ReplaceAll(s[1..], p, r)
  }

  /** Joining one more part at the front. */
  lemma JoinCons(x: string, parts: seq<string>, sep: string)
    requires |parts| >= 1
    ensures Join([x] + parts, sep) == x + sep + Join(parts, sep)
  {
    assert ([x] + parts)[1..] == parts;
  }

  /** Joining with one more part at the back. */
  lemma {:induction false} JoinSnoc(parts: seq<string>, x: string, sep: string)
    requires |parts| >= 1
    ensures Join(parts + [x], sep) == Join(parts, sep) + sep + x
  {
    if |parts| == 1 {
      assert parts + [x] == [parts[0]] + [x];
      JoinCons(parts[0], [x], sep);
    } else {
      JoinSnoc(parts[1..], x, sep);
      assert parts + [x] == [parts[0]] + (parts[1..] + [x]);
      JoinCons(parts[0], parts[1..] + [x], sep);
      assert parts == [parts[0]] + parts[1..];
      JoinCons(parts[0], parts[1..], sep);
    }
  }

  /** Gluing the first character onto the first part of a join. */
  lemma JoinHeadChar(c: char, parts: seq<string>, sep: string)
    requires |parts| >= 1
    ensures Join([[c] + parts[0]] + parts[1..], sep) == [c] + Join(parts, sep)
  {
    if |parts| >= 2 {
      JoinCons([c] + parts[0], parts[1..], sep);
      assert parts == [parts[0]] + parts[1..];
      JoinCons(parts[0], parts[1..], sep);
    }
  }

  /** `s.replace(p, r)` is `r.join(s.split(p))`. */
  lemma {:induction false} ReplaceIsJoinOfSplit(s: string, p: string, r: string)
    requires p != []
    ensures ReplaceAll(s, p, r) == Join(Split(s, p), r)
    decreases |s|
  {
    if |s| < |p| {
    } else if s[..|p|] == p {
      var rest := Split(s[|p|..], p);
      ReplaceIsJoinOfSplit(s[|p|..], p, r);
      JoinCons([], rest, r);
      assert Split(s, p) == [[]] + rest;
      assert [] + r == r;
    } else {
      var rest := Split(s[1..], p);
      ReplaceIsJoinOfSplit(s[1..], p, r);
      JoinHeadChar(s[0], rest, r);
      assert Split(s, p) == [[s[0]] + rest[0]] + rest[1..];
    }
  }

  /** Round trip: `sep.join(s.split(sep)) == s`. */
  lemma SplitJoin(s: string, sep: string)
    requires sep != []
    ensures Join(Split(s, sep), sep) == s
  {
    ReplaceIsJoinOfSplit(s, sep, sep);
    ReplaceWithItself(s, sep);
  }

  lemma {:induction false} ReplaceWithItself(s: string, p: string)
    requires p != []
    ensures ReplaceAll(s, p, p) == s
    decreases |s|
  {
    if |s| < |p| {
    } else if s[..|p|] == p {
      ReplaceWithItself(s[|p|..], p);
      assert s == s[..|p|] + s[|p|..];
    } else {
      ReplaceWithItself(s[1..], p);
      assert s == [s[0]] + s[1..];
    }
  }

  /** Replacing a pattern that does not occur changes nothing. */
  lemma {:induction false} ReplaceAbsent(s: string, p: string, r: string)
    requires p != [] && !Contains(s, p)
    ensures ReplaceAll(s, p, r) == s
    decreases |s|
  {
    if |s| >= |p| {
      ReplaceAbsent(s[1..], p, r);
      assert s == [s[0]] + s[1..];
    }
  }

  /** Splitting on one character: one part more than there are separators, and no part
      contains the separator. */
  lemma {:induction false} SplitOnChar(s: string, c: char)
    ensures |Split(s, [c])| == Count(s, c) + 1
    ensures forall k :: 0 <= k < |Split(s, [c])| ==> Count(Split(s, [c])[k], c) == 0
    decreases |s|
  {
    if s == [] {
    } else if s[..1] == [c] {
      SplitOnChar(s[1..], c);
      assert s[0] == c;
      var rest := Split(s[1..], [c]);
      assert Split(s, [c]) == [[]] + rest;
      forall k | 0 <= k < |Split(s, [c])| ensures Count(Split(s, [c])[k], c) == 0 {
        if k > 0 { assert Split(s, [c])[k] == rest[k - 1]; }
      }
    } else {
      SplitOnChar(s[1..], c);
      assert s[0] != c;
      var rest := Split(s[1..], [c]);
      var parts := Split(s, [c]);
      assert parts == [[s[0]] + rest[0]] + rest[1..];
      forall k | 0 <= k < |parts| ensures Count(parts[k], c) == 0 {
        if k == 0 {
          assert ([s[0]] + rest[0])[1..] == rest[0];
        } else {
          assert parts[k] == rest[k];
        }
      }
    }
  }

  lemma {:induction false} CountZeroMeansAbsent(s: string, c: char)
    requires Count(s, c) == 0
    ensures forall i :: 0 <= i < |s| ==> s[i] != c
    decreases |s|
  {
    if s != [] {
      CountZeroMeansAbsent(s[1..], c);
      forall i | 0 < i < |s| ensures s[i] != c {
        assert s[i] == s[1..][i - 1];
      }
    }
  }

  // ---------------------------------------------------------------------------
  // The last '/'-separated segment: `s.split("/")[-1]` and `os.path.basename(s)`

  /** The longest suffix of `s` without a '/': what follows the last '/', or all of `s`. */
  predicate IsLastSegment(s: string, r: string) {
    && EndsWith(s, r)
    && (forall i :: 0 <= i < |r| ==> r[i] != '/')
    && (|r| == |s| || s[|s| - |r| - 1] == '/')
  }

  /** `os.path.basename(s)` for POSIX paths: the text after the last '/'. */
  function Basename(s: string): (r: string)
    ensures IsLastSegment(s, r)
  {
    if s == [] || s[|s| - 1] == '/' then []
    else
      var r := Basename(s[..|s| - 1]) + [s[|s| - 1]];
      assert s == s[..|s| - 1] + [s[|s| - 1]];
      r
  }

  /** `s.split("/")[-1]` */
  function LastSegment(s: string): string {
    var parts := Split(s, "/");
    parts[|parts| - 1]
  }

  /** Only one suffix can be the last segment. */
  lemma LastSegmentUnique(s: string, r1: string, r2: string)
    requires IsLastSegment(s, r1) && IsLastSegment(s, r2)
    ensures r1 == r2
  {
  }

  /** `s.split("/")[-1]` is the text after the last '/', so it agrees with `os.path.basename`. */
  lemma LastSegmentIsBasename(s: string)
    ensures IsLastSegment(s, LastSegment(s))
    ensures LastSegment(s) == Basename(s)
  {
    var parts := Split(s, "/");
    var last := parts[|parts| - 1];
    SplitJoin(s, "/");
    SplitOnChar(s, '/');
    CountZeroMeansAbsent(last, '/');
    if |parts| >= 2 {
      var init := parts[..|parts| - 1];
      assert parts == init + [last];
      JoinSnoc(init, last, "/");
      assert s == Join(init, "/") + "/" + last;
    } else {
      assert s == last;
    }
    LastSegmentUnique(s, last, Basename(s));
  }

  // ---------------------------------------------------------------------------
  // str(int) and its inverse

  function DigitChar(d: nat): (c: char)
    requires d < 10
    ensures '0' <= c <= '9'
  {
    (('0' as int) + d) as char
  }

  predicate AllDigits(s: string) {
    forall i :: 0 <= i < |s| ==> '0' <= s[i] <= '9'
  }

  /** Decimal digits of `n`, most significant first, without leading zeros. */
  function NatDigits(n: nat): (s: string)
    ensures |s| >= 1 && AllDigits(s)
    ensures s[0] == '0' ==> n == 0
    decreases n
  {
    if n < 10 then [DigitChar(n)] else NatDigits(n / 10) + [DigitChar(n % 10)]
  }

  /** `str(n)` for a Python int. */
  function IntToString(n: int): string {
    if n < 0 then "-" + NatDigits(-n) else NatDigits(n)
  }

  /** `int(s)` for a string of decimal digits. */
  function ParseDigits(s: string): nat
    requires AllDigits(s)
  {
    if s == [] then 0 else 10 * ParseDigits(s[..|s| - 1]) + (s[|s| - 1] as int - '0' as int)
  }

  /** Round trip: `int(str(n)) == n`. */
  lemma {:induction false} ParseNatDigits(n: nat)
    ensures ParseDigits(NatDigits(n)) == n
    decreases n
  {
    if n >= 10 {
      ParseNatDigits(n / 10);
      var s := NatDigits(n);
      assert s[..|s| - 1] == NatDigits(n / 10);
    }
  }
}
