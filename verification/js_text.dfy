/** The JavaScript string and number built-ins the application relies on:
    `String.prototype.trim`, `Number.parseInt(s, 10)` and `String(n)` for a
    non-negative integer. A `char` is a Unicode scalar value, where JavaScript
    strings hold UTF-16 code units; every white-space and digit character lies
    in the Basic Multilingual Plane, so `trim` and `parseInt` treat both the
    same. */
module JsText {
  import opened Options

  /** The WhiteSpace and LineTerminator code points of ECMAScript: the set that
      both `trim` and `parseInt` skip. */
  predicate IsWhitespace(c: char) {
    var k := c as int;
    || k == 0x09 || k == 0x0A || k == 0x0B || k == 0x0C || k == 0x0D
    || k == 0x20 || k == 0xA0 || k == 0x1680
    || (0x2000 <= k <= 0x200A)
    || k == 0x2028 || k == 0x2029 || k == 0x202F || k == 0x205F
    || k == 0x3000 || k == 0xFEFF
  }

  predicate IsDigit(c: char) {
    '0' <= c <= '9'
  }

  predicate AllWhitespace(s: string) {
    forall i :: 0 <= i < |s| ==> IsWhitespace(s[i])
  }

  predicate AllDigits(s: string) {
    forall i :: 0 <= i < |s| ==> IsDigit(s[i])
  }

  /** Every character of `s` from position `lo` up to `hi` is white space. */
  predicate WhiteBetween(s: string, lo: int, hi: int)
    requires 0 <= lo <= hi <= |s|
  {
    forall k :: lo <= k < hi ==> IsWhitespace(s[k])
  }

  /** The position of the first character at or after `from` that is not
      white space, `|s|` when there is none. */
  function SkipWhite(s: string, from: nat): (i: nat)
    requires from <= |s|
    ensures from <= i <= |s| && WhiteBetween(s, from, i)
    ensures i < |s| ==> !IsWhitespace(s[i])
    decreases |s| - from
  {
    if from < |s| && IsWhitespace(s[from]) then SkipWhite(s, from + 1) else from
  }

  /** The position just after the last character before `hi`, and not before
      `lo`, that is not white space; `lo` when there is none. */
  function SkipWhiteBack(s: string, lo: nat, hi: nat): (j: nat)
    requires lo <= hi <= |s|
    ensures lo <= j <= hi && WhiteBetween(s, j, hi)
    ensures lo < j ==> !IsWhitespace(s[j - 1])
    decreases hi
  {
    if lo < hi && IsWhitespace(s[hi - 1]) then SkipWhiteBack(s, lo, hi - 1) else hi
  }

  /** `s` without its leading white space. */
  function TrimStart(s: string): string {
    s[SkipWhite(s, 0)..]
  }

  /** `s[i..j]` is `s` with the white space at both ends removed: only white
      space lies outside it and, unless it is empty, none at its own ends. */
  predicate TrimBounds(s: string, i: int, j: int) {
    && 0 <= i <= j <= |s|
    && WhiteBetween(s, 0, i) && WhiteBetween(s, j, |s|)
    && (i < j ==> !IsWhitespace(s[i]) && !IsWhitespace(s[j - 1]))
  }

  ghost predicate IsTrimOf(s: string, r: string) {
    exists i, j :: TrimBounds(s, i, j) && r == s[i..j]
  }

  /** `String.prototype.trim`. */
  function Trim(s: string): (r: string)
    ensures IsTrimOf(s, r)
    ensures r == [] <==> AllWhitespace(s)
  {
    var i := SkipWhite(s, 0);
    var j := SkipWhiteBack(s, i, |s|);
    assert TrimBounds(s, i, j);
    assert i < j ==> s[i..j][0] == s[i];
    s[i..j]
  }

  /** The trimmed text is determined by the description alone: any slice
      that `TrimBounds` admits is the one `trim` returns. */
  lemma TrimUnique(s: string, i: int, j: int)
    requires TrimBounds(s, i, j)
    ensures Trim(s) == s[i..j]
  {
    // Trim's own bounds meet the same description, and two such bounds
    // either both describe the empty slice or coincide.
    var i', j' :| TrimBounds(s, i', j') && Trim(s) == s[i'..j'];
  }

  /** Length of the longest run of decimal digits at the start of `s`. */
  function DigitRun(s: string): (n: nat)
    ensures n <= |s| && forall k :: 0 <= k < n ==> IsDigit(s[k])
    ensures n < |s| ==> !IsDigit(s[n])
  {
    if |s| > 0 && IsDigit(s[0]) then 1 + DigitRun(s[1..]) else 0
  }

  function DigitValue(c: char): nat
    requires IsDigit(c)
  {
    (c as int) - ('0' as int)
  }

  function DigitChar(d: nat): (c: char)
    requires d < 10
    ensures IsDigit(c) && DigitValue(c) == d
  {
    (('0' as int) + d) as char
  }

  /** The number a string of decimal digits denotes. */
  function DecimalValue(ds: string): nat
    requires AllDigits(ds)
  {
    if ds == [] then 0 else 10 * DecimalValue(ds[..|ds| - 1]) + DigitValue(ds[|ds| - 1])
  }

  /** `Number.parseInt(s, 10)`, with `None` for NaN: leading white space is
      skipped, one optional sign is read, then the longest run of decimal
      digits; whatever follows that run is ignored. Negative zero is not
      distinguished from zero. */
  function ParseInt(s: string): Option<int> {
    ReadSigned(TrimStart(s))
  }

  /** Reads an optional sign and the digits after it. */
  function ReadSigned(t: string): Option<int> {
    if |t| > 0 && t[0] == '-' then
      match ReadDigits(t[1..])
      case None => None
      case Some(m) => Some(-(m as int))
    else if |t| > 0 && t[0] == '+' then
      match ReadDigits(t[1..])
      case None => None
      case Some(m) => Some(m as int)
    else
      match ReadDigits(t)
      case None => None
      case Some(m) => Some(m as int)
  }

  /** The value of the digit run at the start of `u`, `None` when there is none. */
  function ReadDigits(u: string): Option<nat> {
    var n := DigitRun(u);
    if n == 0 then None else Some(DecimalValue(u[..n]))
  }

  /** `String(n)` for a non-negative integer: its decimal numeral without
      leading zeros. */
  function NatToString(n: nat): (r: string)
    ensures |r| > 0 && AllDigits(r)
    ensures r[0] == '0' ==> r == "0"
    ensures DecimalValue(r) == n
  {
    if n < 10 then [DigitChar(n)] else NatToString(n / 10) + [DigitChar(n % 10)]
  }

  lemma TrimStartSkips(w: string, x: string)
    requires AllWhitespace(w)
    requires x == [] || !IsWhitespace(x[0])
    ensures TrimStart(w + x) == x
  {
    SkipWhiteStopsAt(w + x, 0, |w|);
    assert (w + x)[|w|..] == x;
  }

  /** Skipping white space stops at the first character that is not. */
  lemma {:induction false} SkipWhiteStopsAt(s: string, from: nat, k: nat)
    requires from <= k <= |s| && WhiteBetween(s, from, k)
    requires k < |s| ==> !IsWhitespace(s[k])
    ensures SkipWhite(s, from) == k
    decreases k - from
  {
    if from < k {
      SkipWhiteStopsAt(s, from + 1, k);
    }
  }

  lemma {:induction false} DigitRunOf(d: string, rest: string)
    requires AllDigits(d)
    requires rest == [] || !IsDigit(rest[0])
    ensures DigitRun(d + rest) == |d|
  {
    if d != [] {
      assert (d + rest)[1..] == d[1..] + rest;
      DigitRunOf(d[1..], rest);
    }
  }

  /** The sign `parseInt` may read in front of the digits. */
  datatype Sign = NoSign | Plus | Minus {
    function Text(): string {
      match this
      case NoSign => ""
      case Plus => "+"
      case Minus => "-"
    }

    function Apply(magnitude: nat): int {
      if Minus? then -(magnitude as int) else magnitude
    }
  }

  /** What `parseInt` reads: white space, an optional sign, a non-empty run
      of digits and anything that does not start with a digit parse as the
      signed value of the run. */
  lemma ParseIntOfNumeral(w: string, sign: Sign, d: string, rest: string)
    requires AllWhitespace(w)
    requires |d| > 0 && AllDigits(d)
    requires rest == [] || !IsDigit(rest[0])
    ensures ParseInt(w + (sign.Text() + (d + rest))) == Some(sign.Apply(DecimalValue(d)))
  {
    var u := d + rest;
    var x := sign.Text() + u;
    assert u[0] == d[0];
    ReadDigitsOf(d, rest);
    ReadSignedOf(sign, u);
    assert x[0] == (if sign.NoSign? then u[0] else sign.Text()[0]);
    ParseIntAfterWhitespace(w, x);
  }

  /** Leading white space does not change what `parseInt` reads. */
  lemma ParseIntAfterWhitespace(w: string, x: string)
    requires AllWhitespace(w)
    requires x == [] || !IsWhitespace(x[0])
    ensures ParseInt(w + x) == ReadSigned(x)
  {
    TrimStartSkips(w, x);
  }

  /** A sign in front of a digit run applies to the run's value. */
  lemma ReadSignedOf(sign: Sign, u: string)
    requires u == [] || (u[0] != '+' && u[0] != '-')
    ensures ReadSigned(sign.Text() + u) == SignedDigits(sign, u)
  {
    match sign
    case NoSign =>
      assert sign.Text() + u == u;
    case Plus =>
      var x := sign.Text() + u;
      assert x[0] == '+' && x[1..] == u;
    case Minus =>
      var x := sign.Text() + u;
      assert x[0] == '-' && x[1..] == u;
  }

  function SignedDigits(sign: Sign, u: string): Option<int> {
    match ReadDigits(u)
    case None => None
    case Some(m) => Some(sign.Apply(m))
  }

  lemma ReadDigitsOf(d: string, rest: string)
    requires |d| > 0 && AllDigits(d)
    requires rest == [] || !IsDigit(rest[0])
    ensures ReadDigits(d + rest) == Some(DecimalValue(d))
  {
    DigitRunOf(d, rest);
    assert (d + rest)[..|d|] == d;
  }

  /** Text with no digit after its white space and optional sign is NaN. */
  lemma ParseIntNoDigits(w: string, sign: Sign, rest: string)
    requires AllWhitespace(w)
    requires rest == [] || !IsDigit(rest[0])
    requires sign.NoSign? && rest != [] ==> !IsWhitespace(rest[0]) && rest[0] != '+' && rest[0] != '-'
    ensures ParseInt(w + (sign.Text() + rest)) == None
  {
    var x := sign.Text() + rest;
    assert ReadDigits(rest) == None;
    if sign.NoSign? {
      ParseIntAfterWhitespace(w, x);
    } else {
      assert x[0] == sign.Text()[0] && x[1..] == rest;
      ParseIntAfterWhitespace(w, x);
    }
  }

  /** `parseInt(String(n), 10) == n`: the numerals `String` produces read back
      as the number they were made from. */
  lemma NumeralRoundTrip(n: nat)
    ensures ParseInt(NatToString(n)) == Some(n)
  {
    var d := NatToString(n);
    assert [] + (NoSign.Text() + (d + [])) == d;
    ParseIntOfNumeral([], NoSign, d, []);
  }

  /** Distinct numbers get distinct numerals. */
  lemma NumeralInjective(m: nat, n: nat)
    requires NatToString(m) == NatToString(n)
    ensures m == n
  {
    NumeralRoundTrip(m);
    NumeralRoundTrip(n);
  }
}
