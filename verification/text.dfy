/** String helpers shared by the services: the few Python `str` operations the
    pipeline relies on (`strip`, `lower` on ASCII, `in`, slicing, `join`,
    `split`, `replace`), plus decimal rendering and `os.path.join`. */
module Text {
  import opened Wrappers

  // ---------------------------------------------------------------------------
  // Whitespace and strip
  // ---------------------------------------------------------------------------

  /** Python's `str.isspace()` for a single character: the ASCII controls TAB
      through CR, the separators U+001C..U+001F, SPACE, and the Unicode space
      separators and line/paragraph separators. */
  predicate IsSpace(c: char) {
    var n := c as int;
    n == 0x20 || 0x09 <= n <= 0x0D || 0x1C <= n <= 0x1F || n == 0x85 || n == 0xA0
    || n == 0x1680 || 0x2000 <= n <= 0x200A || n == 0x2028 || n == 0x2029
    || n == 0x202F || n == 0x205F || n == 0x3000
  }

  predicate AllSpace(s: string) {
    forall k :: 0 <= k < |s| ==> IsSpace(s[k])
  }

  /** No leading and no trailing whitespace. */
  predicate IsTrimmed(s: string) {
    s == [] || (!IsSpace(s[0]) && !IsSpace(s[|s| - 1]))
  }

  function LeadingSpaces(s: string): (n: nat)
    ensures n <= |s|
    ensures forall k :: 0 <= k < n ==> IsSpace(s[k])
    ensures n < |s| ==> !IsSpace(s[n])
  {
    if s == [] || !IsSpace(s[0]) then 0 else 1 + LeadingSpaces(s[1..])
  }

  function TrailingSpaces(s: string): (n: nat)
    ensures n <= |s|
    ensures forall k :: |s| - n <= k < |s| ==> IsSpace(s[k])
    ensures n < |s| ==> !IsSpace(s[|s| - 1 - n])
  {
    if s == [] || !IsSpace(s[|s| - 1]) then 0 else 1 + TrailingSpaces(s[..|s| - 1])
  }

  /** Python's `str.strip()` with no argument: the longest middle piece of `s`
      that neither starts nor ends with whitespace, obtained by removing only
      whitespace from both ends. */
  function Strip(s: string): (r: string)
    ensures IsTrimmed(r) && |r| <= |s|
  {
    var a := LeadingSpaces(s);
    if a == |s| then []
    else
      var b := |s| - TrailingSpaces(s);
      s[a..b]
  }

  /** Where `Strip` cuts `s`: the kept part is `s[StripStart(s)..StripEnd(s)]`. */
  function StripStart(s: string): nat {
    LeadingSpaces(s)
  }

  function StripEnd(s: string): nat {
    if LeadingSpaces(s) == |s| then |s| else |s| - TrailingSpaces(s)
  }

  /** `Strip` keeps the part between its two cuts, and what it cuts off on
      either side is whitespace. */
  lemma StripBounds(s: string)
    ensures StripStart(s) <= StripEnd(s) <= |s|
    ensures Strip(s) == s[StripStart(s)..StripEnd(s)]
    ensures AllSpace(s[..StripStart(s)]) && AllSpace(s[StripEnd(s)..])
  {
    var a := LeadingSpaces(s);
    if a < |s| {
      assert !IsSpace(s[a]);
    }
  }

  /** What `Strip` removes is whitespace, from the two ends only. */
  lemma StripSlice(s: string)
    ensures exists i, j :: 0 <= i <= j <= |s| && Strip(s) == s[i..j] && AllSpace(s[..i]) && AllSpace(s[j..])
  {
    StripBounds(s);
  }

  /** Stripping a string that is already trimmed changes nothing. */
  lemma StripTrimmed(s: string)
    requires IsTrimmed(s)
    ensures Strip(s) == s
  {
    if s != [] {
      assert LeadingSpaces(s) == 0;
      assert TrailingSpaces(s) == 0;
      assert s[0..|s|] == s;
    }
  }

  // ---------------------------------------------------------------------------
  // ASCII, lower case
  // ---------------------------------------------------------------------------

  predicate IsAscii(c: char) {
    c as int < 128
  }

  predicate AllAscii(s: string) {
    forall k :: 0 <= k < |s| ==> IsAscii(s[k])
  }

  predicate IsUpperAscii(c: char) {
    'A' <= c <= 'Z'
  }

  function LowerChar(c: char): char {
    if IsUpperAscii(c) then (c as int + 32) as char else c
  }

  /** `str.lower()` restricted to the ASCII letters. */
  function Lower(s: string): (r: string)
    ensures |r| == |s|
    ensures forall k :: 0 <= k < |s| ==> r[k] == LowerChar(s[k])
  {
    seq(|s|, k requires 0 <= k < |s| => LowerChar(s[k]))
  }

  /** `s.encode('ascii', 'ignore')` read back as a string: every non-ASCII
      character is dropped, the rest kept in order. */
  function AsciiOnly(s: string): (r: string)
    ensures AllAscii(r)
    ensures |r| <= |s|
    ensures AllAscii(s) ==> r == s
    ensures forall c :: c in r <==> c in s && IsAscii(c)
    ensures |s| == 1 ==> r == if IsAscii(s[0]) then s else []
  {
    if s == [] then []
    else if IsAscii(s[0]) then [s[0]] + AsciiOnly(s[1..])
    else AsciiOnly(s[1..])
  }

  /** Dropping non-ASCII characters works piecewise: together with its effect
      on one character, this fixes the result for every text. */
  lemma {:induction false} AsciiOnlyConcat(a: string, b: string)
    ensures AsciiOnly(a + b) == AsciiOnly(a) + AsciiOnly(b)
  {
    if a == [] {
      assert a + b == b;
    } else {
      assert (a + b)[0] == a[0];
      assert (a + b)[1..] == a[1..] + b;
      AsciiOnlyConcat(a[1..], b);
      if IsAscii(a[0]) {
        assert AsciiOnly(a + b) == [a[0]] + (AsciiOnly(a[1..]) + AsciiOnly(b));
      }
    }
  }

  // ---------------------------------------------------------------------------
  // Substrings, prefixes, suffixes, slicing
  // ---------------------------------------------------------------------------

  /** `needle` occurs in `hay` starting at index `p`. */
  predicate OccursAt(needle: string, hay: string, p: int) {
    0 <= p && p + |needle| <= |hay| && hay[p..p + |needle|] == needle
  }

  /** Python's `needle in hay` on strings. */
  predicate IsSubstring(needle: string, hay: string) {
    exists p | 0 <= p <= |hay| :: OccursAt(needle, hay, p)
  }

  predicate StartsWith(s: string, prefix: string) {
    |prefix| <= |s| && s[..|prefix|] == prefix
  }

  predicate EndsWith(s: string, suffix: string) {
    |suffix| <= |s| && s[|s| - |suffix|..] == suffix
  }

  function Min(a: int, b: int): int {
    if a <= b then a else b
  }

  /** Python's `s[:n]` for `n >= 0`. */
  function Take(s: string, n: nat): (r: string)
    ensures |r| == Min(n, |s|)
    ensures StartsWith(s, r)
  {
    if |s| <= n then s else s[..n]
  }

  /** `s.replace(from, to)` for single characters. */
  function ReplaceChar(s: string, from: char, to: char): (r: string)
    ensures |r| == |s|
    ensures forall k :: 0 <= k < |s| ==> r[k] == (if s[k] == from then to else s[k])
  {
    seq(|s|, k requires 0 <= k < |s| => if s[k] == from then to else s[k])
  }

  // ---------------------------------------------------------------------------
  // Decimal numbers
  // ---------------------------------------------------------------------------

  predicate IsDigit(c: char) {
    '0' <= c <= '9'
  }

  predicate AllDigits(s: string) {
    forall k :: 0 <= k < |s| ==> IsDigit(s[k])
  }

  function DigitChar(d: nat): (c: char)
    requires d < 10
    ensures IsDigit(c)
  {
    ('0' as int + d) as char
  }

  /** Python's `str(n)` for a natural number: the shortest decimal numeral. */
  function NatToString(n: nat): (s: string)
    ensures |s| >= 1 && AllDigits(s)
    ensures |s| > 1 ==> s[0] != '0'
  {
    if n < 10 then [DigitChar(n)] else NatToString(n / 10) + [DigitChar(n % 10)]
  }

  /** The value of a decimal numeral (leading zeros allowed). */
  function DigitsValue(s: string): nat
    requires AllDigits(s)
  {
    if s == [] then 0 else DigitsValue(s[..|s| - 1]) * 10 + (s[|s| - 1] as int - '0' as int)
  }

  /** Reading back the numeral of `n` yields `n`. */
  lemma {:induction false} DigitsValueOfNatToString(n: nat)
    ensures DigitsValue(NatToString(n)) == n
  {
    var s := NatToString(n);
    if n >= 10 {
      DigitsValueOfNatToString(n / 10);
      assert s[..|s| - 1] == NatToString(n / 10);
    }
  }

  // ---------------------------------------------------------------------------
  // Join and split on one separator character
  // ---------------------------------------------------------------------------

  /** Python's `sep.join(parts)` for a one-character separator. */
  function Join(parts: seq<string>, sep: char): (r: string)
    ensures parts == [] ==> r == []
    ensures |parts| == 1 ==> r == parts[0]
    ensures |parts| >= 1 ==> |r| == TotalLength(parts) + |parts| - 1
  {
    if |parts| == 0 then []
    else if |parts| == 1 then parts[0]
    else parts[0] + [sep] + Join(parts[1..], sep)
  }

  function TotalLength(parts: seq<string>): nat {
    if parts == [] then 0 else |parts[0]| + TotalLength(parts[1..])
  }

  /** Index of the first `c` in `s`, or `|s|` when there is none. */
  function FirstIndex(s: string, c: char): (i: nat)
    ensures i <= |s|
    ensures i < |s| ==> s[i] == c
    ensures forall k :: 0 <= k < i ==> s[k] != c
  {
    if s == [] then 0 else if s[0] == c then 0 else 1 + FirstIndex(s[1..], c)
  }

  /** Python's `s.split(sep)` for a one-character separator. */
  function Split(s: string, sep: char): (r: seq<string>)
    ensures |r| >= 1
    decreases |s|
  {
    var i := FirstIndex(s, sep);
    if i == |s| then [s] else [s[..i]] + Split(s[i + 1..], sep)
  }

  predicate NoneContains(parts: seq<string>, c: char) {
    forall k :: 0 <= k < |parts| ==> c !in parts[k]
  }

  /** Splitting a join gives the parts back, provided there is at least one
      part and no part contains the separator. */
  lemma {:induction false} SplitJoin(parts: seq<string>, sep: char)
    requires |parts| >= 1
    requires NoneContains(parts, sep)
    ensures Split(Join(parts, sep), sep) == parts
  {
    var p0 := parts[0];
    assert sep !in p0;
    if |parts| == 1 {
      assert FirstIndex(p0, sep) == |p0|;
    } else {
      var rest := Join(parts[1..], sep);
      var s := p0 + [sep] + rest;
      assert s[|p0|] == sep;
      assert forall k :: 0 <= k < |p0| ==> s[k] == p0[k];
      var i := FirstIndex(s, sep);
      assert i == |p0|;
      assert s[..i] == p0;
      assert s[i + 1..] == rest;
      SplitJoin(parts[1..], sep);
      assert parts == [p0] + parts[1..];
    }
  }

  // ---------------------------------------------------------------------------
  // Paths
  // ---------------------------------------------------------------------------

  /** `os.path.join(dir, name)` on POSIX for two components. */
  function PathJoin(dir: string, name: string): (r: string)
    ensures EndsWith(r, name)
    ensures StartsWith(name, "/") ==> r == name
    ensures !StartsWith(name, "/") ==> StartsWith(r, dir)
    ensures !StartsWith(name, "/") && dir != [] && dir[|dir| - 1] != '/' ==> r == dir + "/" + name
    ensures !StartsWith(name, "/") && (dir == [] || dir[|dir| - 1] == '/') ==> r == dir + name
  {
    if StartsWith(name, "/") then name
    else if dir == [] || dir[|dir| - 1] == '/' then dir + name
    else dir + "/" + name
  }
}
