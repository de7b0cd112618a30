/**
 * The parts of PHP's value semantics that the module's code relies on:
 * truthiness of strings, `empty()`, `??`, concatenation with null,
 * `implode`, `bin2hex` and `array_filter`.
 */
module Php {

  datatype Option<+T> = None | Some(value: T)

  /** A string is falsy in PHP exactly when it is "" or "0". */
  predicate Truthy(s: string) {
    s != "" && s != "0"
  }

  /** `empty($v)` for an entry that holds a string or is unset or null. */
  predicate Empty(v: Option<string>) {
    v.None? || !Truthy(v.value)
  }

  /** `$v ?? $default`: only an unset or null value is replaced. */
  function Coalesce<T>(v: Option<T>, default: T): T {
    if v.Some? then v.value else default
  }

  /** A string-or-null operand of `.`: null concatenates as "". */
  function AsString(v: Option<string>): string {
    if v.Some? then v.value else ""
  }

  lemma CoalesceKeepsEmptyString(default: string)
    ensures Coalesce(Some(""), default) == ""
    ensures Empty(Some("")) && Coalesce(None, default) == default
  {
  }

  // ---------------------------------------------------------------------
  // implode

  /** `implode($glue, $pieces)` over a list. */
  function Implode(glue: string, pieces: seq<string>): string
    decreases |pieces|
  {
    if |pieces| == 0 then ""
    else if |pieces| == 1 then pieces[0]
    else pieces[0] + glue + Implode(glue, pieces[1..])
  }

  function TotalLength(pieces: seq<string>): nat {
    if pieces == [] then 0 else |pieces[0]| + TotalLength(pieces[1..])
  }

  /** The joined string holds every piece and one glue between neighbours. */
  lemma {:induction false} ImplodeLength(glue: string, pieces: seq<string>)
    requires pieces != []
    ensures |Implode(glue, pieces)| == TotalLength(pieces) + (|pieces| - 1) * |glue|
  {
    if |pieces| > 1 {
      ImplodeLength(glue, pieces[1..]);
      assert (|pieces| - 1) * |glue| == |glue| + (|pieces| - 2) * |glue|;
    }
  }

  /** Joining is also a left fold: appending a piece appends glue and that piece. */
  lemma {:induction false} ImplodeSnoc(glue: string, pieces: seq<string>, last: string)
    requires pieces != []
    ensures Implode(glue, pieces + [last]) == Implode(glue, pieces) + glue + last
  {
    var ps := pieces + [last];
    assert ps[0] == pieces[0];
    if |pieces| == 1 {
      assert ps[1..] == [last];
    } else {
      assert ps[1..] == pieces[1..] + [last];
      ImplodeSnoc(glue, pieces[1..], last);
    }
  }

  /** A piece-wise reference: the join of `pieces` is the first piece followed
      by glue-then-piece for each later piece, in order. */
  function GlueEach(glue: string, pieces: seq<string>): string {
    if pieces == [] then "" else glue + pieces[0] + GlueEach(glue, pieces[1..])
  }

  lemma {:induction false} ImplodeIsGlueEach(glue: string, pieces: seq<string>)
    requires pieces != []
    ensures Implode(glue, pieces) == pieces[0] + GlueEach(glue, pieces[1..])
  {
    if |pieces| > 1 {
      ImplodeIsGlueEach(glue, pieces[1..]);
    } else {
      assert pieces[1..] == [];
    }
  }

  // ---------------------------------------------------------------------
  // bin2hex

  newtype byte = x: int | 0 <= x < 256

  predicate IsLowerHex(c: char) {
    '0' <= c <= '9' || 'a' <= c <= 'f'
  }

  predicate IsLowerHexString(s: string) {
    forall i :: 0 <= i < |s| ==> IsLowerHex(s[i])
  }

  /** The lowercase hex digit of a nibble, as `bin2hex` writes it. */
  function HexDigit(n: int): (c: char)
    requires 0 <= n < 16
    ensures IsLowerHex(c)
  {
    if n < 10 then ('0' as int + n) as char else ('a' as int + n - 10) as char
  }

  /** The nibble a lowercase hex digit stands for. */
  function HexValue(c: char): (n: int)
    requires IsLowerHex(c)
    ensures 0 <= n < 16 && HexDigit(n) == c
  {
    if c <= '9' then c as int - '0' as int else c as int - 'a' as int + 10
  }

  lemma HexValueOfDigit(n: int)
    requires 0 <= n < 16
    ensures HexValue(HexDigit(n)) == n
  {
  }

  /** `bin2hex($bytes)`: two lowercase hex digits per byte, high nibble first. */
  function Bin2Hex(bytes: seq<byte>): (r: string)
    ensures |r| == 2 * |bytes|
    ensures IsLowerHexString(r)
  {
    if bytes == [] then ""
    else [HexDigit(bytes[0] as int / 16), HexDigit(bytes[0] as int % 16)] + Bin2Hex(bytes[1..])
  }

  /** The inverse reading of a lowercase hex string (`hex2bin`). */
  function Hex2Bin(hex: string): (r: seq<byte>)
    requires |hex| % 2 == 0 && IsLowerHexString(hex)
    ensures |r| == |hex| / 2
  {
    if hex == [] then []
    else [(HexValue(hex[0]) * 16 + HexValue(hex[1])) as byte] + Hex2Bin(hex[2..])
  }

  /** No information is lost: every byte string is recovered from its hex. */
  lemma {:induction false} Hex2BinOfBin2Hex(bytes: seq<byte>)
    ensures Hex2Bin(Bin2Hex(bytes)) == bytes
  {
    if bytes != [] {
      var h := Bin2Hex(bytes);
      var b := bytes[0] as int;
      HexValueOfDigit(b / 16);
      HexValueOfDigit(b % 16);
      assert h[2..] == Bin2Hex(bytes[1..]);
      Hex2BinOfBin2Hex(bytes[1..]);
    }
  }

  /** And every lowercase hex string of even length is some `bin2hex` output. */
  lemma {:induction false} Bin2HexOfHex2Bin(hex: string)
    requires |hex| % 2 == 0 && IsLowerHexString(hex)
    ensures Bin2Hex(Hex2Bin(hex)) == hex
  {
    if hex != [] {
      var bs := Hex2Bin(hex);
      var b := HexValue(hex[0]) * 16 + HexValue(hex[1]);
      assert b / 16 == HexValue(hex[0]) && b % 16 == HexValue(hex[1]);
      assert bs[1..] == Hex2Bin(hex[2..]);
      Bin2HexOfHex2Bin(hex[2..]);
    }
  }

  // ---------------------------------------------------------------------
  // array_filter

  /** A scalar array element. The form API's checkbox values are the option
      key when a box is checked and the integer 0 when it is not. */
  datatype Scalar = IntValue(i: int) | StringValue(s: string)

  predicate ScalarTruthy(v: Scalar) {
    match v
    case IntValue(i) => i != 0
    case StringValue(s) => Truthy(s)
  }

  /** An ordered PHP array of (key, value) entries. */
  type Entries = seq<(string, Scalar)>

  /** `array_filter($a)` without a callback: drops every entry whose value is
      falsy and keeps the others with their keys, in order. */
  function ArrayFilter(a: Entries): (r: Entries)
    ensures |r| <= |a|
    ensures forall e :: e in r <==> e in a && ScalarTruthy(e.1)
  {
    if a == [] then []
    else if ScalarTruthy(a[0].1) then [a[0]] + ArrayFilter(a[1..])
    else ArrayFilter(a[1..])
  }

  /** Order is kept: filtering a concatenation filters each part in place. */
  lemma {:induction false} ArrayFilterAppend(a: Entries, b: Entries)
    ensures ArrayFilter(a + b) == ArrayFilter(a) + ArrayFilter(b)
  {
    if a != [] {
      assert (a + b)[0] == a[0] && (a + b)[1..] == a[1..] + b;
      ArrayFilterAppend(a[1..], b);
    } else {
      assert a + b == b;
    }
  }

  /** Filtering twice is filtering once. */
  lemma {:induction false} ArrayFilterIdempotent(a: Entries)
    ensures ArrayFilter(ArrayFilter(a)) == ArrayFilter(a)
  {
    if a != [] {
      ArrayFilterIdempotent(a[1..]);
      var r := ArrayFilter(a);
      if ScalarTruthy(a[0].1) {
        assert r[0] == a[0] && r[1..] == ArrayFilter(a[1..]);
      }
    }
  }

  // ---------------------------------------------------------------------
  // trim, ltrim, rtrim

  /** `trim`'s default character list: space, tab, newline, carriage
      return, NUL and vertical tab. */
  const TrimChars: set<char> := {' ', '\t', '\n', '\r', 0 as char, 11 as char}

  /** `ltrim($s, $chars)`: the longest suffix that does not start with one
      of `chars`. */
  function LTrim(s: string, chars: set<char>): (r: string)
    ensures |r| <= |s| && r == s[|s| - |r|..]
    ensures forall i :: 0 <= i < |s| - |r| ==> s[i] in chars
    ensures r != [] ==> r[0] !in chars
  {
    if s != [] && s[0] in chars then LTrim(s[1..], chars) else s
  }

  /** `rtrim($s, $chars)`: the longest prefix that does not end with one of
      `chars`. */
  function RTrim(s: string, chars: set<char>): (r: string)
    ensures |r| <= |s| && r == s[..|r|]
    ensures forall i :: |r| <= i < |s| ==> s[i] in chars
    ensures r != [] ==> r[|r| - 1] !in chars
  {
    if s != [] && s[|s| - 1] in chars then RTrim(s[..|s| - 1], chars) else s
  }

  /** Nothing to strip at the front: `ltrim` returns its input. */
  lemma LTrimKeeps(s: string, chars: set<char>)
    requires s == [] || s[0] !in chars
    ensures LTrim(s, chars) == s
  {
  }

  /** Nothing to strip at the end: `rtrim` returns its input. */
  lemma RTrimKeeps(s: string, chars: set<char>)
    requires s == [] || s[|s| - 1] !in chars
    ensures RTrim(s, chars) == s
  {
  }

  /** `trim($s, $chars)`. */
  function Trim(s: string, chars: set<char>): string {
    RTrim(LTrim(s, chars), chars)
  }
}
