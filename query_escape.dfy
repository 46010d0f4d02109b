/**
 * Go's `url.QueryEscape`: a byte string turned into text that is safe as a
 * query component. The unreserved characters of section 2.3 of RFC 3986
 * (ALPHA, DIGIT, `-`, `.`, `_`, `~`) are kept, a space becomes `+`, and
 * every other byte becomes `%XX` with two upper-case hexadecimal digits
 * (section 2.1 of RFC 3986). `Unescape` is Go's `url.QueryUnescape`.
 */
module QueryEscape {
  import opened Wrappers

  newtype byte = x: int | 0 <= x < 256

  const Space: byte := 32

  /**
   * Unreserved characters of section 2.3 of RFC 3986. None of them is a
   * character the escaped form or a `key=value` pair gives meaning to.
   */
  function IsUnreserved(b: byte): (r: bool)
    ensures r ==> b != Space && b != 37 && b != 43 && b != 61  // not ' ', '%', '+', '='
  {
    || (65 <= b <= 90)    // A-Z
    || (97 <= b <= 122)   // a-z
    || (48 <= b <= 57)    // 0-9
    || b == 45 || b == 95 || b == 46 || b == 126  // - _ . ~
  }

  predicate IsUnreservedChar(ch: char) {
    ch as int < 256 && IsUnreserved(ch as int as byte)
  }

  /** Bytes written as a `%XX` triple: everything but the unreserved ones and space. */
  predicate NeedsPercent(b: byte) {
    b != Space && !IsUnreserved(b)
  }

  predicate IsUpperHex(ch: char) { '0' <= ch <= '9' || 'A' <= ch <= 'F' }

  predicate IsHex(ch: char) { IsUpperHex(ch) || 'a' <= ch <= 'f' }

  /** The upper-case hexadecimal digit for d. */
  function HexDigit(d: nat): (ch: char)
    requires d < 16
    ensures IsUpperHex(ch)
  {
    if d < 10 then ('0' as int + d) as char else ('A' as int + d - 10) as char
  }

  function HexValue(ch: char): (d: nat)
    requires IsHex(ch)
    ensures d < 16
  {
    if '0' <= ch <= '9' then ch as int - '0' as int
    else if 'a' <= ch <= 'f' then ch as int - 'a' as int + 10
    else ch as int - 'A' as int + 10
  }

  lemma HexDigitValue(d: nat)
    requires d < 16
    ensures HexValue(HexDigit(d)) == d
  {
  }

  lemma UpperHexDigit(ch: char)
    requires IsUpperHex(ch)
    ensures HexDigit(HexValue(ch)) == ch
  {
  }

  /**
   * The escape of one byte: a single safe character (the byte itself or `+`
   * for a space), or a `%XX` triple whose digits are upper case and read
   * back as the byte.
   */
  function EscapeByte(b: byte): (e: string)
    ensures !NeedsPercent(b) ==> |e| == 1 && (IsUnreservedChar(e[0]) || e[0] == '+')
    ensures NeedsPercent(b) ==>
      && |e| == 3 && e[0] == '%' && IsUpperHex(e[1]) && IsUpperHex(e[2])
      && HexValue(e[1]) * 16 + HexValue(e[2]) == b as int
  {
    if b == Space then "+"
    else if IsUnreserved(b) then [b as int as char]
    else
      HexDigitValue(b as int / 16);
      HexDigitValue(b as int % 16);
      ['%', HexDigit(b as int / 16), HexDigit(b as int % 16)]
  }

  /** `url.QueryEscape(s)`, byte by byte from the front. */
  function Escape(s: seq<byte>): (t: string)
    ensures |s| <= |t| <= 3 * |s|
  {
    if s == [] then [] else EscapeByte(s[0]) + Escape(s[1..])
  }

  /**
   * Text made only of unreserved characters, `+` and `%XX` triples with
   * upper-case digits that stand for a byte needing a triple: exactly the
   * texts `Escape` produces (see `EscapedIsCanonical`).
   */
  predicate IsEscaped(t: string)
    decreases |t|
  {
    || t == []
    || (IsUnreservedChar(t[0]) && IsEscaped(t[1..]))
    || (t[0] == '+' && IsEscaped(t[1..]))
    || (&& |t| >= 3 && t[0] == '%' && IsUpperHex(t[1]) && IsUpperHex(t[2])
        && NeedsPercent((HexValue(t[1]) * 16 + HexValue(t[2])) as byte)
        && IsEscaped(t[3..]))
  }

  /** One escaped byte in front of an escaped text is escaped text. */
  lemma EscapeByteEscaped(b: byte, rest: string)
    requires IsEscaped(rest)
    ensures IsEscaped(EscapeByte(b) + rest)
  {
    var t := EscapeByte(b) + rest;
    if b == Space {
      assert t[0] == '+' && t[1..] == rest;
    } else if IsUnreserved(b) {
      assert IsUnreservedChar(t[0]) && t[1..] == rest;
    } else {
      HexDigitValue(b as int / 16);
      HexDigitValue(b as int % 16);
      assert t[0] == '%' && t[3..] == rest;
      assert (HexValue(t[1]) * 16 + HexValue(t[2])) as byte == b;
    }
  }

  /** `Escape` produces only escaped text. */
  lemma {:induction false} EscapeIsEscaped(s: seq<byte>)
    ensures IsEscaped(Escape(s))
  {
    if s != [] {
      EscapeIsEscaped(s[1..]);
      EscapeByteEscaped(s[0], Escape(s[1..]));
    }
  }

  /** `url.QueryUnescape(t)`: `+` is a space, `%XX` (either case) is a byte; a bad `%` is an error. */
  function Unescape(t: string): Option<seq<byte>>
    decreases |t|
  {
    if t == [] then Some([])
    else if t[0] == '%' then
      if |t| >= 3 && IsHex(t[1]) && IsHex(t[2]) then
        var rest :- Unescape(t[3..]);
        Some([(HexValue(t[1]) * 16 + HexValue(t[2])) as byte] + rest)
      else None
    else if t[0] == '+' then
      var rest :- Unescape(t[1..]);
      Some([Space] + rest)
    else if t[0] as int < 256 then
      var rest :- Unescape(t[1..]);
      Some([t[0] as int as byte] + rest)
    else None
  }

  lemma UnescapeEscapeByte(b: byte, rest: string)
    ensures Unescape(EscapeByte(b) + rest) ==
            match Unescape(rest)
            case None => None
            case Some(bs) => Some([b] + bs)
  {
    var t := EscapeByte(b) + rest;
    if b == Space {
      assert t[1..] == rest;
    } else if IsUnreserved(b) {
      assert t[1..] == rest;
    } else {
      assert t[3..] == rest;
      HexDigitValue(b as int / 16);
      HexDigitValue(b as int % 16);
    }
  }

  /** Unescaping an escaped value gives back exactly the original bytes. */
  lemma {:induction false} EscapeRoundTrip(s: seq<byte>)
    ensures Unescape(Escape(s)) == Some(s)
  {
    if s != [] {
      EscapeRoundTrip(s[1..]);
      UnescapeEscapeByte(s[0], Escape(s[1..]));
      assert [s[0]] + s[1..] == s;
    }
  }

  /** An escaped byte in front of a canonical rest gives a canonical text. */
  lemma CanonicalStep(t: string, n: nat, b: byte)
    requires 1 <= n <= |t| && t[..n] == EscapeByte(b)
    requires Unescape(t[n..]).Some? && Escape(Unescape(t[n..]).value) == t[n..]
    ensures Unescape(t).Some? && Escape(Unescape(t).value) == t
  {
    var rest := Unescape(t[n..]).value;
    assert t == EscapeByte(b) + t[n..];
    UnescapeEscapeByte(b, t[n..]);
    assert ([b] + rest)[1..] == rest;
  }

  /** Two hexadecimal digits determine their byte and are determined by it. */
  lemma HexPairUnique(a: nat, b: nat, c: nat, d: nat)
    requires a < 16 && b < 16 && c < 16 && d < 16
    requires a * 16 + b == c * 16 + d
    ensures a == c && b == d
  {
  }

  /** The byte a leading `%XX` triple of an escaped text stands for escapes back to it. */
  lemma PercentTriple(t: string)
    requires |t| >= 3 && t[0] == '%' && IsUpperHex(t[1]) && IsUpperHex(t[2])
    requires NeedsPercent((HexValue(t[1]) * 16 + HexValue(t[2])) as byte)
    ensures EscapeByte((HexValue(t[1]) * 16 + HexValue(t[2])) as byte) == t[..3]
  {
    var e := EscapeByte((HexValue(t[1]) * 16 + HexValue(t[2])) as byte);
    HexPairUnique(HexValue(e[1]), HexValue(e[2]), HexValue(t[1]), HexValue(t[2]));
    UpperHexDigit(t[1]);
    UpperHexDigit(t[2]);
    UpperHexDigit(e[1]);
    UpperHexDigit(e[2]);
    assert e == [t[0], t[1], t[2]];
  }

  /** Every escaped text is the escape of the bytes it unescapes to. */
  lemma {:induction false} EscapedIsCanonical(t: string)
    requires IsEscaped(t)
    ensures Unescape(t).Some? && Escape(Unescape(t).value) == t
    decreases |t|
  {
    if t != [] {
      if IsUnreservedChar(t[0]) {
        EscapedIsCanonical(t[1..]);
        CanonicalStep(t, 1, t[0] as int as byte);
      } else if t[0] == '+' {
        EscapedIsCanonical(t[1..]);
        CanonicalStep(t, 1, Space);
      } else {
        assert |t| >= 3 && t[0] == '%' && IsUpperHex(t[1]) && IsUpperHex(t[2]);
        EscapedIsCanonical(t[3..]);
        PercentTriple(t);
        CanonicalStep(t, 3, (HexValue(t[1]) * 16 + HexValue(t[2])) as byte);
      }
    }
  }

  /** No escaped text holds a space or a `=`: an escaped value is one token, and it ends a `key=value` pair. */
  lemma {:induction false} EscapedHasNoSpaceOrEquals(t: string)
    requires IsEscaped(t)
    ensures forall i :: 0 <= i < |t| ==> t[i] != ' ' && t[i] != '='
    decreases |t|
  {
    if t != [] {
      if IsUnreservedChar(t[0]) || t[0] == '+' {
        EscapedHasNoSpaceOrEquals(t[1..]);
        assert forall i :: 1 <= i < |t| ==> t[i] == t[1..][i - 1];
      } else {
        EscapedHasNoSpaceOrEquals(t[3..]);
        assert forall i :: 3 <= i < |t| ==> t[i] == t[3..][i - 3];
      }
    }
  }
}
