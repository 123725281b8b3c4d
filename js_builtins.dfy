/**
 * The few JavaScript and Node.js built-ins the two route handlers lean on:
 * truthiness of an optional string, `||`, `String.prototype.trim`,
 * `String.prototype.toUpperCase`, `String.prototype.includes` and
 * `Buffer.prototype.toString('hex')`.
 */
module JsBuiltins {
  import opened Wrappers

  /** Truthiness of a value that is either `undefined` or a string. */
  predicate Truthy(v: Option<string>) {
    v.Some? && v.value != ""
  }

  /** `a || b`: the first operand when it is truthy, otherwise the second. */
  function Or(a: Option<string>, b: Option<string>): Option<string> {
    if Truthy(a) then a else b
  }

  // ---------------------------------------------------------------- trim

  /** WhiteSpace and LineTerminator code points, the ones `trim` removes. */
  predicate IsWhiteSpace(c: char) {
    || c == '\t' || c == '\n' || c == '\U{B}' || c == '\U{C}' || c == '\r' || c == ' '
    || c == '\U{A0}' || c == '\U{1680}' || ('\U{2000}' <= c <= '\U{200A}')
    || c == '\U{2028}' || c == '\U{2029}' || c == '\U{202F}' || c == '\U{205F}'
    || c == '\U{3000}' || c == '\U{FEFF}'
  }

  predicate AllWhiteSpace(s: string) {
    forall k :: 0 <= k < |s| ==> IsWhiteSpace(s[k])
  }

  /** No white space at either end. */
  predicate Trimmed(s: string) {
    s == [] || (!IsWhiteSpace(s[0]) && !IsWhiteSpace(s[|s| - 1]))
  }

  /** Length of the white-space run that starts `s`. */
  function Leading(s: string): (n: nat)
    ensures n <= |s|
    ensures AllWhiteSpace(s[..n])
    ensures n < |s| ==> !IsWhiteSpace(s[n])
  {
    if s != [] && IsWhiteSpace(s[0]) then
      var n := 1 + Leading(s[1..]);
      assert s[..n] == [s[0]] + s[1..][..n - 1];
      n
    else 0
  }

  /** Length of the white-space run that ends `s`. */
  function Trailing(s: string): (n: nat)
    ensures n <= |s|
    ensures AllWhiteSpace(s[|s| - n..])
    ensures n < |s| ==> !IsWhiteSpace(s[|s| - n - 1])
  {
    if s != [] && IsWhiteSpace(s[|s| - 1]) then
      var n := 1 + Trailing(s[..|s| - 1]);
      assert s[|s| - n..] == s[..|s| - 1][|s| - n..] + [s[|s| - 1]];
      n
    else 0
  }

  /** `s.trim()`: `s` without its leading and trailing white space. */
  function Trim(s: string): (r: string)
    ensures Trimmed(r)
    ensures |r| <= |s|
    ensures Leading(s) + |r| <= |s| && r == s[Leading(s)..Leading(s) + |r|]
  {
    var t := s[Leading(s)..];
    var n := Trailing(t);
    assert n < |t| ==> !IsWhiteSpace(t[|t| - n - 1]);
    t[..|t| - n]
  }

  lemma {:induction false} LeadingOfPrefixed(p: string, s: string)
    requires AllWhiteSpace(p) && (s == [] || !IsWhiteSpace(s[0]))
    ensures Leading(p + s) == |p|
    decreases |p|
  {
    if p != [] {
      assert (p + s)[1..] == p[1..] + s;
      LeadingOfPrefixed(p[1..], s);
    }
  }

  lemma {:induction false} TrailingOfSuffixed(s: string, q: string)
    requires AllWhiteSpace(q) && (s == [] || !IsWhiteSpace(s[|s| - 1]))
    ensures Trailing(s + q) == |q|
    decreases |q|
  {
    if q != [] {
      assert (s + q)[..|s + q| - 1] == s + q[..|q| - 1];
      TrailingOfSuffixed(s, q[..|q| - 1]);
    }
  }

  /**
   * `trim` removes exactly the surrounding white space: for any core `s`
   * without white space at its ends, `(p + s + q).trim()` is `s`.
   */
  lemma TrimStrips(p: string, s: string, q: string)
    requires AllWhiteSpace(p) && AllWhiteSpace(q) && Trimmed(s) && s != []
    ensures Trim(p + s + q) == s
  {
    var whole := p + s + q;
    assert (s + q)[0] == s[0];
    assert whole == p + (s + q);
    LeadingOfPrefixed(p, s + q);
    var t := whole[Leading(whole)..];
    assert t == s + q;
    TrailingOfSuffixed(s, q);
    assert t[..|t| - Trailing(t)] == s;
  }

  /** Trimming twice is trimming once. */
  lemma TrimIdempotent(s: string)
    ensures Trim(Trim(s)) == Trim(s)
  {
    var r := Trim(s);
    if r != [] {
      TrimStrips([], r, []);
      assert [] + r + [] == r;
    }
  }

  // --------------------------------------------------------- toUpperCase

  /** The lower-case letters of Basic Latin and Latin-1 that `toUpperCase` maps one-to-one. */
  predicate IsLowerCase(c: char) {
    ('a' <= c <= 'z') || ('\U{E0}' <= c <= '\U{FE}' && c != '\U{F7}')
  }

  function UpperChar(c: char): (u: char)
    ensures !IsLowerCase(u)
  {
    if IsLowerCase(c) then (c as int - 32) as char else c
  }

  /** `s.toUpperCase()`, restricted to Basic Latin and Latin-1 letters. */
  function ToUpperCase(s: string): (r: string)
    ensures |r| == |s|
    ensures forall k :: 0 <= k < |s| ==> !IsLowerCase(r[k])
    ensures forall k :: 0 <= k < |s| && !IsLowerCase(s[k]) ==> r[k] == s[k]
    ensures forall k :: 0 <= k < |s| && IsLowerCase(s[k]) ==> r[k] as int == s[k] as int - 32
  {
    seq(|s|, k requires 0 <= k < |s| => UpperChar(s[k]))
  }

  /** A string without lower-case letters, such as an upper-cased name, is its own upper case. */
  lemma UpperCaseFixed(s: string)
    requires forall k :: 0 <= k < |s| ==> !IsLowerCase(s[k])
    ensures ToUpperCase(s) == s
  {
  }

  // ------------------------------------------------------------ includes

  /** `s.includes(t)`, searched left to right. */
  predicate Includes(s: string, t: string)
    decreases |s|
  {
    |t| <= |s| && (s[..|t|] == t || Includes(s[1..], t))
  }

  predicate OccursAt(s: string, t: string, i: int) {
    0 <= i <= |s| - |t| && s[i..i + |t|] == t
  }

  /** `includes` holds exactly when `t` occurs at some position of `s`. */
  lemma {:induction false} IncludesAt(s: string, t: string)
    ensures Includes(s, t) <==> exists i :: OccursAt(s, t, i)
    decreases |s|
  {
    if |t| <= |s| && s[..|t|] != t {
      IncludesAt(s[1..], t);
      if Includes(s[1..], t) {
        var i :| OccursAt(s[1..], t, i);
        assert OccursAt(s, t, i + 1);
      }
      if exists i :: OccursAt(s, t, i) {
        var i :| OccursAt(s, t, i);
        assert i > 0;
        assert OccursAt(s[1..], t, i - 1);
      }
    } else if |t| <= |s| {
      assert OccursAt(s, t, 0);
    }
  }

  // ------------------------------------------------------------ hex

  /** An octet, as returned by `crypto.randomBytes`. */
  newtype Byte = x: int | 0 <= x < 256

  predicate IsHexDigit(c: char) {
    ('0' <= c <= '9') || ('a' <= c <= 'f')
  }

  function HexDigit(n: int): (c: char)
    requires 0 <= n < 16
    ensures IsHexDigit(c)
  {
    if n < 10 then ('0' as int + n) as char else ('a' as int + n - 10) as char
  }

  function DigitValue(c: char): (n: int)
    requires IsHexDigit(c)
    ensures 0 <= n < 16
  {
    if c <= '9' then c as int - '0' as int else c as int - 'a' as int + 10
  }

  /** `buffer.toString('hex')`: two lower-case digits per byte, high nibble first. */
  function HexEncode(bytes: seq<Byte>): (s: string)
    ensures |s| == 2 * |bytes|
    ensures forall k :: 0 <= k < |s| ==> IsHexDigit(s[k])
  {
    if bytes == [] then []
    else [HexDigit(bytes[0] as int / 16), HexDigit(bytes[0] as int % 16)] + HexEncode(bytes[1..])
  }

  function HexDecode(s: string): seq<Byte>
    requires |s| % 2 == 0
    requires forall k :: 0 <= k < |s| ==> IsHexDigit(s[k])
  {
    if s == [] then []
    else [(DigitValue(s[0]) * 16 + DigitValue(s[1])) as Byte] + HexDecode(s[2..])
  }

  /** Hex encoding loses nothing: decoding it gives the bytes back. */
  lemma {:induction false} HexRoundTrip(bytes: seq<Byte>)
    ensures HexDecode(HexEncode(bytes)) == bytes
  {
    if bytes != [] {
      var s := HexEncode(bytes);
      assert s[2..] == HexEncode(bytes[1..]);
      HexRoundTrip(bytes[1..]);
      assert bytes == [bytes[0]] + bytes[1..];
    }
  }

  /** Distinct random byte strings give distinct state tokens. */
  lemma HexInjective(a: seq<Byte>, b: seq<Byte>)
    requires HexEncode(a) == HexEncode(b)
    ensures a == b
  {
    HexRoundTrip(a);
    HexRoundTrip(b);
  }
}
