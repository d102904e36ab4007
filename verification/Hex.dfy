/** Python's bytes.hex and bytes.fromhex, through which keys and signatures travel (activity/signing.py). */
module Hex {
  import opened Common

  type Nibble = n: int | 0 <= n < 16

  function Digit(n: Nibble): char {
    if n < 10 then ('0' as int + n) as char else ('a' as int + (n - 10)) as char
  }

  /** Either case is read. */
  function DigitValue(c: char): Option<Nibble> {
    if '0' <= c <= '9' then Some(c as int - '0' as int)
    else if 'a' <= c <= 'f' then Some(c as int - 'a' as int + 10)
    else if 'A' <= c <= 'F' then Some(c as int - 'A' as int + 10)
    else None
  }

  /** The whitespace that fromhex skips between two bytes. */
  predicate HexSpace(c: char) {
    c == ' ' || '\t' <= c <= '\r'
  }

  function ToHex(bytes: seq<Byte>): string {
    if bytes == [] then [] else [Digit(bytes[0] / 16), Digit(bytes[0] % 16)] + ToHex(bytes[1..])
  }

  /** None is the ValueError. */
  function FromHex(s: string): Option<seq<Byte>> {
    if s == [] then Some([])
    else if HexSpace(s[0]) then FromHex(s[1..])
    else if |s| < 2 || DigitValue(s[0]).None? || DigitValue(s[1]).None? then None
    else
      match FromHex(s[2..])
      case None => None
      case Some(rest) => Some([DigitValue(s[0]).value * 16 + DigitValue(s[1]).value] + rest)
  }

  lemma DigitMeans(n: Nibble)
    ensures DigitValue(Digit(n)) == Some(n) && !HexSpace(Digit(n))
  {}

  /** Decoding an encoding gives the bytes back; other spellings of the same bytes are read as well. */
  lemma {:induction false} HexRoundTrip(bytes: seq<Byte>)
    ensures FromHex(ToHex(bytes)) == Some(bytes)
    ensures ToHex(bytes) == "" <==> bytes == []
  {
    if bytes != [] {
      var s := ToHex(bytes);
      DigitMeans(bytes[0] / 16);
      DigitMeans(bytes[0] % 16);
      HexRoundTrip(bytes[1..]);
      assert s[2..] == ToHex(bytes[1..]);
      assert bytes == [bytes[0]] + bytes[1..];
    }
  }

  /** A hex text in capitals. */
  function Capitals(s: string): string {
    seq(|s|, i requires 0 <= i < |s| => if 'a' <= s[i] <= 'f' then (s[i] as int - 32) as char else s[i])
  }

  lemma CapitalMeans(c: char)
    ensures var upper := if 'a' <= c <= 'f' then (c as int - 32) as char else c;
      DigitValue(upper) == DigitValue(c) && (HexSpace(upper) <==> HexSpace(c))
  {}

  /** Capitals decode to the same bytes. */
  lemma {:induction false} CapitalsDecode(s: string)
    ensures FromHex(Capitals(s)) == FromHex(s)
    decreases |s|
  {
    var upper := Capitals(s);
    if s != [] {
      CapitalMeans(s[0]);
      assert upper[1..] == Capitals(s[1..]);
      CapitalsDecode(s[1..]);
      if |s| >= 2 {
        CapitalMeans(s[1]);
        assert upper[2..] == Capitals(s[2..]);
        CapitalsDecode(s[2..]);
      }
    }
  }

  /** Whitespace before a byte is passed over; anything else that is no digit is an error. */
  lemma SpacesSkipped(c: char, rest: string)
    ensures c == ' ' || c == '\t' || c == '\n' || c == '\r' || c == '\U{0B}' || c == '\U{0C}' ==>
      FromHex([c] + rest) == FromHex(rest)
    ensures (c < '\t' || '\r' < c < ' ' || ' ' < c < '0' || '9' < c < 'A' || 'F' < c < 'a' || 'f' < c) ==>
      FromHex([c] + rest) == None
  {
    assert ([c] + rest)[1..] == rest;
  }
}
