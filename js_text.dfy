/**
 * The JavaScript built-ins the application leans on, over strings as
 * sequences of characters: `String.prototype.trim`, `split` with a
 * one-character separator, `startsWith`/`endsWith`, `toLowerCase`, `charAt(0)`,
 * `parseInt`, `parseFloat`, `Math.round`, the rendering of an integer inside a
 * template literal.
 */
module JsText {
  import opened Wrappers

  // ---------------------------------------------------------------------------
  // trim

  /** The WhiteSpace and LineTerminator code points that `trim` and `parseInt` skip. */
  predicate IsWhite(c: char) {
    var n := c as int;
    n == 0x09 || n == 0x0A || n == 0x0B || n == 0x0C || n == 0x0D || n == 0x20 ||
    n == 0xA0 || n == 0x1680 || (0x2000 <= n <= 0x200A) || n == 0x2028 ||
    n == 0x2029 || n == 0x202F || n == 0x205F || n == 0x3000 || n == 0xFEFF
  }

  /** A string with no white space at either end. */
  predicate IsTrimmed(s: string) {
    s == [] || (!IsWhite(s[0]) && !IsWhite(s[|s| - 1]))
  }

  /** `s` with its maximal run of leading white space removed. */
  function TrimStart(s: string): (r: string)
    ensures |r| <= |s| && r == s[|s| - |r|..]
    ensures r == [] || !IsWhite(r[0])
    ensures forall i :: 0 <= i < |s| - |r| ==> IsWhite(s[i])
  {
    if s != [] && IsWhite(s[0]) then TrimStart(s[1..]) else s
  }

  /** `s` with its maximal run of trailing white space removed. */
  function TrimEnd(s: string): (r: string)
    ensures |r| <= |s| && r == s[..|r|]
    ensures r == [] || !IsWhite(r[|r| - 1])
    ensures forall i :: |r| <= i < |s| ==> IsWhite(s[i])
  {
    if s != [] && IsWhite(s[|s| - 1]) then TrimEnd(s[..|s| - 1]) else s
  }

  /** `t` is a contiguous piece of `s`. */
  ghost predicate IsSlice(t: string, s: string) {
    exists a, b :: 0 <= a <= b <= |s| && t == s[a..b]
  }

  /** Every character of `s` before index `a` or from index `b` on is white space. */
  ghost predicate WhiteOutside(s: string, a: int, b: int) {
    forall i :: 0 <= i < |s| && (i < a || b <= i) ==> IsWhite(s[i])
  }

  /** `r` is the piece of `s` starting at index `a`, with only white space around it. */
  ghost predicate CutAt(r: string, s: string, a: int) {
    0 <= a <= a + |r| <= |s| && r == s[a..a + |r|] && WhiteOutside(s, a, a + |r|)
  }

  /**
   * `String.prototype.trim`: the middle of `s` once white space is cut from
   * both ends; the cut starts where the leading white space ends.
   */
  function Trim(s: string): (r: string)
    ensures IsTrimmed(r)
    ensures IsSlice(r, s)
    ensures CutAt(r, s, |s| - |TrimStart(s)|)
  {
    TrimPieces(s);
    TrimEnd(TrimStart(s))
  }

  /** Cutting white space from the start and then from the end leaves a trimmed piece of `s` with white space around it. */
  lemma TrimPieces(s: string)
    ensures IsTrimmed(TrimEnd(TrimStart(s)))
    ensures CutAt(TrimEnd(TrimStart(s)), s, |s| - |TrimStart(s)|)
    ensures IsSlice(TrimEnd(TrimStart(s)), s)
  {
    var t := TrimStart(s);
    var r := TrimEnd(t);
    TrimPiecesCut(s, t, r, |s| - |t|);
    TrimPiecesTrimmed(t, r);
  }

  lemma TrimPiecesTrimmed(t: string, r: string)
    requires r == TrimEnd(t) && (t == [] || !IsWhite(t[0]))
    ensures IsTrimmed(r)
  {
    if r != [] {
      assert r[0] == t[0];
    }
  }

  lemma TrimPiecesCut(s: string, t: string, r: string, a: int)
    requires t == TrimStart(s) && r == TrimEnd(t) && a == |s| - |t|
    ensures CutAt(r, s, a)
    ensures IsSlice(r, s)
  {
    assert t == s[a..] && r == t[..|r|];
    TrimPiecesSlice(s, t, r, a);
    TrimPiecesWhite(s, t, r, a);
  }

  lemma TrimPiecesSlice(s: string, t: string, r: string, a: int)
    requires 0 <= a <= |s| && t == s[a..] && |r| <= |t| && r == t[..|r|]
    ensures 0 <= a <= a + |r| <= |s| && r == s[a..a + |r|]
  {
    forall i | 0 <= i < |r|
      ensures r[i] == s[a + i]
    {
      assert r[i] == t[i];
    }
  }

  lemma TrimPiecesWhite(s: string, t: string, r: string, a: int)
    requires t == TrimStart(s) && r == TrimEnd(t) && a == |s| - |t|
    ensures WhiteOutside(s, a, a + |r|)
  {
    forall i | a + |r| <= i < |s|
      ensures IsWhite(s[i])
    {
      assert s[i] == t[i - a];
    }
  }

  /** Trimming leaves a string without white space at its ends as it is. */
  lemma TrimTrimmed(s: string)
    requires IsTrimmed(s)
    ensures Trim(s) == s
  {
  }

  /** A piece of a piece of `s` is a piece of `s`. */
  lemma SliceOfSlice(u: string, t: string, s: string)
    requires IsSlice(u, t) && IsSlice(t, s)
    ensures IsSlice(u, s)
  {
    var a, b :| 0 <= a <= b <= |s| && t == s[a..b];
    var c, d :| 0 <= c <= d <= |t| && u == t[c..d];
    SliceSlice(s, a, b, c, d);
    assert 0 <= a + c <= a + d <= |s| && u == s[a + c..a + d];
  }

  lemma SliceSlice(s: string, a: int, b: int, c: int, d: int)
    requires 0 <= a <= b <= |s| && 0 <= c <= d <= b - a
    ensures s[a..b][c..d] == s[a + c..a + d]
  {
    forall i | 0 <= i < d - c
      ensures s[a..b][c..d][i] == s[a + c..a + d][i]
    {
      assert s[a..b][c..d][i] == s[a + c + i];
    }
  }

  /** Trimming twice is trimming once. */
  lemma TrimIdempotent(s: string)
    ensures Trim(Trim(s)) == Trim(s)
  {
    TrimTrimmed(Trim(s));
  }

  /** A trimmed string framed by two newlines trims back to itself. */
  lemma {:induction false} TrimNewlineFrame(b: string)
    requires IsTrimmed(b)
    ensures Trim("\n" + b + "\n") == b
  {
    var s := "\n" + b + "\n";
    assert s[1..] == b + "\n";
    assert TrimStart(s) == TrimStart(b + "\n");
    if b == [] {
      assert TrimStart("\n") == TrimStart([]);
    } else {
      assert TrimStart(b + "\n") == b + "\n";
      assert (b + "\n")[..|b|] == b;
      assert TrimEnd(b + "\n") == TrimEnd(b);
    }
  }

  // ---------------------------------------------------------------------------
  // split and join

  /** `s.split(sep)` for a one-character separator: the pieces between separators. */
  function Split(s: string, sep: char): (parts: seq<string>)
    ensures |parts| == multiset(s)[sep] + 1
    ensures forall i :: 0 <= i < |parts| ==> sep !in parts[i]
  {
    assert s != [] ==> s == [s[0]] + s[1..];
    if s == [] then [[]]
    else
      var rest := Split(s[1..], sep);
      if s[0] == sep then [[]] + rest
      else [[s[0]] + rest[0]] + rest[1..]
  }

  /** `parts.join(sep)`. */
  function Join(parts: seq<string>, sep: char): string
    requires |parts| >= 1
  {
    if |parts| == 1 then parts[0] else parts[0] + [sep] + Join(parts[1..], sep)
  }

  /** Splitting loses nothing: joining the pieces gives the string back. */
  lemma {:induction false} SplitJoin(s: string, sep: char)
    ensures Join(Split(s, sep), sep) == s
  {
    if s != [] {
      var rest := Split(s[1..], sep);
      var parts := Split(s, sep);
      SplitJoin(s[1..], sep);
      if s[0] == sep {
        assert parts == [[]] + rest;
        JoinEmptyHead(rest, sep);
      } else {
        assert parts == [[s[0]] + rest[0]] + rest[1..];
        JoinPrepend(s[0], rest, sep);
      }
      assert Join(parts, sep) == [s[0]] + s[1..];
      assert s == [s[0]] + s[1..];
    }
  }

  /** A leading empty piece joins to a leading separator. */
  lemma JoinEmptyHead(parts: seq<string>, sep: char)
    requires |parts| >= 1
    ensures Join([[]] + parts, sep) == [sep] + Join(parts, sep)
  {
    var q := [[]] + parts;
    assert q[0] == [] && q[1..] == parts;
  }

  /** A character glued onto the first piece comes first in the joined text. */
  lemma JoinPrepend(c: char, parts: seq<string>, sep: char)
    requires |parts| >= 1
    ensures Join([[c] + parts[0]] + parts[1..], sep) == [c] + Join(parts, sep)
  {
    var q := [[c] + parts[0]] + parts[1..];
    if |parts| > 1 {
      assert q[0] == [c] + parts[0] && q[1..] == parts[1..];
    }
  }

  /** Splitting `p + t` where `p` holds no separator glues `p` onto the first piece of `t`. */
  lemma {:induction false} SplitPrefix(p: string, t: string, sep: char)
    requires sep !in p
    ensures Split(p + t, sep) == [p + Split(t, sep)[0]] + Split(t, sep)[1..]
  {
    if p != [] {
      assert (p + t)[1..] == p[1..] + t;
      SplitPrefix(p[1..], t, sep);
      assert (p + t)[0] == p[0];
      assert [p[0]] + (p[1..] + Split(t, sep)[0]) == p + Split(t, sep)[0];
    } else {
      var parts := Split(t, sep);
      assert p + t == t;
      assert p + parts[0] == parts[0];
      assert [parts[0]] + parts[1..] == parts;
    }
  }

  /** Joining pieces free of the separator and splitting again gives the pieces back. */
  lemma {:induction false} JoinSplit(parts: seq<string>, sep: char)
    requires |parts| >= 1
    requires forall i :: 0 <= i < |parts| ==> sep !in parts[i]
    ensures Split(Join(parts, sep), sep) == parts
  {
    if |parts| == 1 {
      SplitPrefix(parts[0], [], sep);
      assert parts[0] + [] == parts[0];
    } else {
      var tail := Join(parts[1..], sep);
      JoinSplit(parts[1..], sep);
      assert Join(parts, sep) == parts[0] + ([sep] + tail);
      SplitPrefix(parts[0], [sep] + tail, sep);
      SplitAfterSep(tail, sep);
      var rest := [[]] + parts[1..];
      assert rest[0] == [] && rest[1..] == parts[1..];
      assert parts[0] + [] == parts[0];
      assert [parts[0]] + parts[1..] == parts;
    }
  }

  /** A leading separator splits off an empty first piece. */
  lemma SplitAfterSep(t: string, sep: char)
    ensures Split([sep] + t, sep) == [[]] + Split(t, sep)
  {
    assert ([sep] + t)[1..] == t;
  }

  // ---------------------------------------------------------------------------
  // startsWith, endsWith, toLowerCase, charAt

  predicate StartsWith(s: string, prefix: string) {
    |prefix| <= |s| && s[..|prefix|] == prefix
  }

  predicate EndsWith(s: string, suffix: string) {
    |suffix| <= |s| && s[|s| - |suffix|..] == suffix
  }

  /** Lower-casing of one character; only the ASCII letters A-Z change. */
  function LowerChar(c: char): char {
    if 'A' <= c <= 'Z' then (c as int + 32) as char else c
  }

  /** `s.toLowerCase()` on ASCII letters. */
  function ToLower(s: string): (r: string)
    ensures |r| == |s|
    ensures forall i :: 0 <= i < |s| && 'A' <= s[i] <= 'Z' ==> r[i] as int == s[i] as int + 32
    ensures forall i :: 0 <= i < |s| && !('A' <= s[i] <= 'Z') ==> r[i] == s[i]
  {
    seq(|s|, i requires 0 <= i < |s| => LowerChar(s[i]))
  }

  /** `s.charAt(0)`: the first character as a string, or "" for the empty string. */
  function CharAt0(s: string): (r: string)
    ensures |r| <= 1 && |r| <= |s| && r == s[..|r|]
    ensures s != [] ==> |r| == 1
  {
    if s == [] then "" else [s[0]]
  }

  // ---------------------------------------------------------------------------
  // numbers: parseInt, parseFloat, Math.round and integer rendering

  predicate IsDecimalDigit(c: char) { '0' <= c <= '9' }

  predicate IsHexDigit(c: char) {
    IsDecimalDigit(c) || 'a' <= c <= 'f' || 'A' <= c <= 'F'
  }

  predicate IsDigitOf(c: char, hex: bool) {
    if hex then IsHexDigit(c) else IsDecimalDigit(c)
  }

  function DigitValue(c: char): (d: nat)
    requires IsHexDigit(c)
    ensures d < 16
    ensures IsDecimalDigit(c) ==> d < 10
  {
    if IsDecimalDigit(c) then c as int - '0' as int
    else if 'a' <= c <= 'f' then c as int - 'a' as int + 10
    else c as int - 'A' as int + 10
  }

  /** The longest prefix of `s` made of digits (hexadecimal when `hex`). */
  function LeadingDigits(s: string, hex: bool): (ds: string)
    ensures |ds| <= |s| && ds == s[..|ds|]
    ensures AllDigits(ds, hex)
    ensures |ds| == |s| || !IsDigitOf(s[|ds|], hex)
  {
    if s != [] && IsDigitOf(s[0], hex) then [s[0]] + LeadingDigits(s[1..], hex) else []
  }

  predicate AllDigits(ds: string, hex: bool) {
    forall i :: 0 <= i < |ds| ==> IsDigitOf(ds[i], hex)
  }

  /** The number a string of digits denotes, most significant digit first. */
  function DigitsValue(ds: string, hex: bool): nat
    requires AllDigits(ds, hex)
  {
    if ds == [] then 0
    else
      var last := ds[|ds| - 1];
      assert IsDigitOf(last, hex);
      assert IsHexDigit(last);
      DigitsValue(ds[..|ds| - 1], hex) * (if hex then 16 else 10) + DigitValue(last)
  }

  /** `s` with a leading '+' or '-' removed. */
  function DropSign(t: string): (u: string) {
    if t != [] && (t[0] == '-' || t[0] == '+') then t[1..] else t
  }

  /**
   * `parseInt(s)` without a radix: leading white space is skipped, one sign is
   * allowed, a "0x"/"0X" prefix selects base 16, and the longest digit prefix
   * is read. No digit at all gives `NaN`, here `None`.
   */
  function ParseInt(s: string): Option<int> {
    var t := TrimStart(s);
    var neg := t != [] && t[0] == '-';
    var u := DropSign(t);
    var hex := |u| >= 2 && u[0] == '0' && (u[1] == 'x' || u[1] == 'X');
    var ds := LeadingDigits(if hex then u[2..] else u, hex);
    if ds == [] then None
    else
      var v: int := DigitsValue(ds, hex);
      Some(if neg then -v else v)
  }

  /** `parseInt(s) || d`: the parsed integer, or `d` when it is `NaN` or zero. */
  function ParseIntOr(s: string, d: int): (r: int)
    ensures d != 0 ==> r != 0
  {
    match ParseInt(s)
    case Some(v) => if v != 0 then v else d
    case None => d
  }

  function Pow10(n: nat): (p: nat)
    ensures p >= 1
  {
    if n == 0 then 1 else 10 * Pow10(n - 1)
  }

  /**
   * `parseFloat(s)`: white space, one sign, integer digits, optionally a point
   * and fraction digits; at least one digit is needed, otherwise `NaN` (`None`).
   */
  function ParseFloat(s: string): Option<real> {
    var t := TrimStart(s);
    var neg := t != [] && t[0] == '-';
    var u := DropSign(t);
    var ip := LeadingDigits(u, false);
    var rest := u[|ip|..];
    var fp := if rest != [] && rest[0] == '.' then LeadingDigits(rest[1..], false) else [];
    if ip == [] && fp == [] then None
    else
      var v := DigitsValue(ip, false) as real + DigitsValue(fp, false) as real / Pow10(|fp|) as real;
      Some(if neg then -v else v)
  }

  /** `parseFloat(s) || 0`. */
  function FloatOrZero(s: string): real {
    ParseFloat(s).GetOr(0.0)
  }

  /** `Math.round(x)`: the nearest integer, halves rounded towards +infinity. */
  function Round(x: real): (r: int)
    ensures x - 0.5 < r as real <= x + 0.5
  {
    (x + 0.5).Floor
  }

  /** `x` is a whole number of tenths. */
  predicate OnTenths(x: real) {
    (x * 10.0).Floor as real == x * 10.0
  }

  /** `Math.round(x * 10) / 10`: `x` to one decimal place. */
  function RoundTenth(x: real): (r: real)
    ensures x - 0.05 < r <= x + 0.05
    ensures OnTenths(r)
  {
    var n := Round(x * 10.0);
    assert (n as real / 10.0) * 10.0 == n as real;
    n as real / 10.0
  }

  function DigitChar(d: nat): (c: char)
    requires d < 10
    ensures IsDecimalDigit(c) && DigitValue(c) == d
  {
    ('0' as int + d) as char
  }

  /** The decimal digits of `n`, without leading zeros. */
  function NatDigits(n: nat): (ds: string)
    ensures ds != []
    ensures forall i :: 0 <= i < |ds| ==> IsDecimalDigit(ds[i])
  {
    if n < 10 then [DigitChar(n)] else NatDigits(n / 10) + [DigitChar(n % 10)]
  }

  /** An integer as a template literal renders it. */
  function IntToString(n: int): string {
    if n < 0 then "-" + NatDigits(-n) else NatDigits(n)
  }

  lemma {:induction false} NatDigitsValue(n: nat)
    ensures DigitsValue(NatDigits(n), false) == n
  {
    if n >= 10 {
      var ds := NatDigits(n);
      assert ds[..|ds| - 1] == NatDigits(n / 10);
      NatDigitsValue(n / 10);
    }
  }

  /** The sign and the digits of a rendered integer. */
  lemma RenderedParts(n: int)
    ensures var ds := NatDigits(if n < 0 then -n else n);
      && TrimStart(IntToString(n)) == IntToString(n)
      && DropSign(IntToString(n)) == ds
      && (IntToString(n)[0] == '-' <==> n < 0)
      && !(|ds| >= 2 && ds[0] == '0' && (ds[1] == 'x' || ds[1] == 'X'))
      && LeadingDigits(ds, false) == ds
  {
    var ds := NatDigits(if n < 0 then -n else n);
    var s := IntToString(n);
    assert !IsWhite(s[0]);
    if n < 0 {
      assert s[1..] == ds;
    }
    var ld := LeadingDigits(ds, false);
    assert |ld| == |ds|;
  }

  /** `parseInt` reads back every integer a template literal renders. */
  lemma ParseIntRoundTrip(n: int)
    ensures ParseInt(IntToString(n)) == Some(n)
  {
    NatDigitsValue(if n < 0 then -n else n);
    RenderedParts(n);
  }

  /** `parseInt(s) || d` is the parsed number unless parsing fails or gives 0, and then `d`. */
  lemma ParseIntOrDefault(s: string, d: int)
    ensures ParseInt(s) == None || ParseInt(s) == Some(0) ==> ParseIntOr(s, d) == d
    ensures ParseInt(s).Some? && ParseInt(s).value != 0 ==> ParseIntOr(s, d) == ParseInt(s).value
  {
  }

  /** `parseInt(s) || d` reads back every non-zero integer. */
  lemma ParseIntOrRoundTrip(n: int, d: int)
    requires n != 0
    ensures ParseIntOr(IntToString(n), d) == n
  {
    ParseIntRoundTrip(n);
  }

  /** `parseFloat` reads back every rendered integer as that number. */
  lemma ParseFloatOfInt(n: int)
    ensures ParseFloat(IntToString(n)) == Some(n as real)
  {
    var m := if n < 0 then -n else n;
    var ds := NatDigits(m);
    var s := IntToString(n);
    NatDigitsValue(m);
    RenderedParts(n);
    assert TrimStart(s) == s && DropSign(s) == ds;
    assert LeadingDigits(ds, false) == ds;
    assert ds[|ds|..] == [];
    assert DigitsValue([], false) as real / Pow10(0) as real == 0.0;
  }
}
