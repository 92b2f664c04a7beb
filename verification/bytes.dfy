/**
 * Bytes and text as the Rust standard library sees them: a `String` is a
 * sequence of bytes that is well-formed UTF-8, `format!("{}", n)` writes the
 * shortest decimal digits of `n`, `usize::from_str_radix(s, 10)` parses an
 * optional `+` followed by decimal digits, and `split` cuts a byte slice at
 * every separator.
 */
module Bytes {
  import opened Wrappers

  type byte = x: int | 0 <= x < 256

  /** `usize` is modelled as the 64-bit type. */
  const USIZE_MAX: nat := 0xFFFF_FFFF_FFFF_FFFF

  const COLON: byte := 0x3A
  const SPACE: byte := 0x20
  const PLUS: byte := 0x2B

  predicate IsCont(b: byte) { 0x80 <= b <= 0xBF }

  /** Length of the well-formed UTF-8 sequence at the head of `s` (Unicode Table 3-7), 0 when ill-formed. */
  function Utf8Width(s: seq<byte>): (w: nat)
    ensures w <= |s|
    ensures w > 0 ==> s != []
    ensures s != [] && s[0] < 0x80 ==> w == 1
  {
    if |s| == 0 then 0
    else if s[0] < 0x80 then 1
    else if 0xC2 <= s[0] <= 0xDF then
      (if |s| >= 2 && IsCont(s[1]) then 2 else 0)
    else if s[0] == 0xE0 then
      (if |s| >= 3 && 0xA0 <= s[1] <= 0xBF && IsCont(s[2]) then 3 else 0)
    else if (0xE1 <= s[0] <= 0xEC) || (0xEE <= s[0] <= 0xEF) then
      (if |s| >= 3 && IsCont(s[1]) && IsCont(s[2]) then 3 else 0)
    else if s[0] == 0xED then
      (if |s| >= 3 && 0x80 <= s[1] <= 0x9F && IsCont(s[2]) then 3 else 0)
    else if s[0] == 0xF0 then
      (if |s| >= 4 && 0x90 <= s[1] <= 0xBF && IsCont(s[2]) && IsCont(s[3]) then 4 else 0)
    else if 0xF1 <= s[0] <= 0xF3 then
      (if |s| >= 4 && IsCont(s[1]) && IsCont(s[2]) && IsCont(s[3]) then 4 else 0)
    else if s[0] == 0xF4 then
      (if |s| >= 4 && 0x80 <= s[1] <= 0x8F && IsCont(s[2]) && IsCont(s[3]) then 4 else 0)
    else 0
  }

  /** What `str::from_utf8` accepts. */
  predicate ValidUtf8(s: seq<byte>)
    decreases |s|
  {
    s == [] || (Utf8Width(s) > 0 && ValidUtf8(s[Utf8Width(s)..]))
  }

  /** The bytes of a Rust `String`. */
  type Text = s: seq<byte> | ValidUtf8(s) witness []

  lemma {:induction false} AsciiIsUtf8(s: seq<byte>)
    requires forall i :: 0 <= i < |s| ==> s[i] < 0x80
    ensures ValidUtf8(s)
    decreases |s|
  {
    if s != [] {
      assert Utf8Width(s) == 1;
      AsciiIsUtf8(s[1..]);
    }
  }

  function AsciiByte(c: char): byte
  {
    if c as int < 0x80 then c as int else 0x3F
  }

  /** The bytes of an ASCII string literal in ffcli. */
  function Ascii(s: string): (r: Text)
    ensures |r| == |s|
    ensures forall i :: 0 <= i < |s| ==> r[i] == AsciiByte(s[i])
  {
    var b := seq(|s|, i requires 0 <= i < |s| => AsciiByte(s[i]));
    AsciiIsUtf8(b);
    b
  }

  lemma AsciiConcat(a: string, b: string)
    ensures Ascii(a + b) == Ascii(a) + Ascii(b)
  {
    assert forall i :: 0 <= i < |a| + |b| ==> Ascii(a + b)[i] == (Ascii(a) + Ascii(b))[i];
  }

  function DigitChar(d: nat): char
    requires d < 10
  {
    ('0' as int + d) as char
  }

  /** `format!("{}", n)`: the shortest decimal representation of `n`. */
  function DecimalString(n: nat): (s: string)
    ensures |s| >= 1
    ensures forall i :: 0 <= i < |s| ==> '0' <= s[i] <= '9'
    decreases n
  {
    if n < 10 then [DigitChar(n)] else DecimalString(n / 10) + [DigitChar(n % 10)]
  }

  predicate IsDigit(b: byte) { 0x30 <= b <= 0x39 }

  predicate AllDigits(s: seq<byte>) { forall i :: 0 <= i < |s| ==> IsDigit(s[i]) }

  function DigitsValue(s: seq<byte>): nat
    requires AllDigits(s)
    decreases |s|
  {
    if s == [] then 0 else DigitsValue(s[..|s| - 1]) * 10 + (s[|s| - 1] - 0x30)
  }

  /**
   * `usize::from_str_radix(s, 10)`: an optional leading `+`, then one or
   * more decimal digits (leading zeros allowed) whose value fits in `usize`.
   */
  function ParseUsize(s: seq<byte>): (r: Option<nat>)
    ensures r.Some? ==> r.value <= USIZE_MAX
    ensures r.Some? ==> s != [] && (IsDigit(s[0]) || s[0] == PLUS)
  {
    if s == [] then None
    else
      var digits := if s[0] == PLUS then s[1..] else s;
      if digits == [] || !AllDigits(digits) then None
      else if DigitsValue(digits) <= USIZE_MAX then Some(DigitsValue(digits))
      else None
  }

  /**
   * What `ParseUsize` reads: after an optional `+`, a nonempty run of
   * decimal digits whose value fits in `usize`, and that value.
   */
  lemma ParseUsizeMeaning(s: seq<byte>)
    ensures var d := if s != [] && s[0] == PLUS then s[1..] else s;
      ParseUsize(s).Some? <==> s != [] && d != [] && AllDigits(d) && DigitsValue(d) <= USIZE_MAX
    ensures var d := if s != [] && s[0] == PLUS then s[1..] else s;
      ParseUsize(s).Some? ==> AllDigits(d) && ParseUsize(s).value == DigitsValue(d)
  {
  }

  /** A leading `+` is accepted and does not change the value. */
  lemma ParseUsizePlus(n: nat)
    requires n <= USIZE_MAX
    ensures ParseUsize([PLUS] + Ascii(DecimalString(n))) == Some(n)
  {
    DecimalValue(n);
    assert ([PLUS] + Ascii(DecimalString(n)))[1..] == Ascii(DecimalString(n));
  }

  lemma {:induction false} DecimalValue(n: nat)
    ensures AllDigits(Ascii(DecimalString(n)))
    ensures DigitsValue(Ascii(DecimalString(n))) == n
    decreases n
  {
    var s := Ascii(DecimalString(n));
    assert AllDigits(s);
    if n >= 10 {
      DecimalValue(n / 10);
      AsciiConcat(DecimalString(n / 10), [DigitChar(n % 10)]);
      var p := Ascii(DecimalString(n / 10));
      assert s[..|s| - 1] == p;
    }
  }

  /** Decimal digits written by `format!` parse back to the same number. */
  lemma ParseDecimal(n: nat)
    requires n <= USIZE_MAX
    ensures ParseUsize(Ascii(DecimalString(n))) == Some(n)
  {
    DecimalValue(n);
    var s := Ascii(DecimalString(n));
    assert s[0] != PLUS;
  }

  /** Index of the first `b` in `s`, or `|s|` when there is none. */
  function IndexOf(s: seq<byte>, b: byte): (i: nat)
    ensures i <= |s|
    ensures i < |s| ==> s[i] == b
    ensures forall j :: 0 <= j < i ==> s[j] != b
  {
    if s == [] then 0
    else if s[0] == b then 0
    else 1 + IndexOf(s[1..], b)
  }

  /** What `read_until(d, buf)` appends: everything up to and including the first `d`, or all of `s`. */
  function UntilDelim(s: seq<byte>, d: byte): (r: seq<byte>)
    ensures r <= s
    ensures s != [] ==> r != []
    ensures d in r ==> r[|r| - 1] == d
    ensures forall j :: 0 <= j < |r| - 1 ==> r[j] != d
    ensures d !in s ==> r == s
  {
    var i := IndexOf(s, d);
    if i < |s| then s[..i + 1] else s
  }

  lemma UntilDelimAfter(a: seq<byte>, d: byte, rest: seq<byte>)
    requires d !in a
    ensures UntilDelim(a + [d] + rest, d) == a + [d]
  {
    var s := a + [d] + rest;
    assert s[|a|] == d;
  }

  /** `s.split(|b| *b == sep)`: the pieces between separators, at least one. */
  function Split(s: seq<byte>, sep: byte): (r: seq<seq<byte>>)
    ensures |r| >= 1
    decreases |s|
  {
    var i := IndexOf(s, sep);
    if i == |s| then [s] else [s[..i]] + Split(s[i + 1..], sep)
  }

  lemma SplitAfter(a: seq<byte>, sep: byte, rest: seq<byte>)
    requires sep !in a
    ensures Split(a + [sep] + rest, sep) == [a] + Split(rest, sep)
  {
    var s := a + [sep] + rest;
    assert s[|a|] == sep;
    assert IndexOf(s, sep) == |a|;
    assert s[..|a|] == a;
    assert s[|a| + 1..] == rest;
  }

  lemma SplitNone(a: seq<byte>, sep: byte)
    requires sep !in a
    ensures Split(a, sep) == [a]
  {
  }

  lemma DecimalHasNo(n: nat, b: byte)
    requires !IsDigit(b)
    ensures b !in Ascii(DecimalString(n))
  {
    DecimalValue(n);
  }
}
