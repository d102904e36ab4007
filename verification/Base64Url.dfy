/** Base64url without padding (trust/tokens.py; section 5 of RFC 4648). */
module Base64Url {
  import opened Common

  type Sextet = n: int | 0 <= n < 64

  function Symbol(n: Sextet): char {
    if n < 26 then ('A' as int + n) as char
    else if n < 52 then ('a' as int + (n - 26)) as char
    else if n < 62 then ('0' as int + (n - 52)) as char
    else if n == 62 then '-' else '_'
  }

  predicate Alphabet(c: char) {
    'A' <= c <= 'Z' || 'a' <= c <= 'z' || '0' <= c <= '9' || c == '-' || c == '_'
  }

  /** The decoder's table; the standard alphabet's two other symbols are accepted as well. */
  function Meaning(c: char): Option<Sextet> {
    if 'A' <= c <= 'Z' then Some(c as int - 'A' as int)
    else if 'a' <= c <= 'z' then Some(c as int - 'a' as int + 26)
    else if '0' <= c <= '9' then Some(c as int - '0' as int + 52)
    else if c == '-' || c == '+' then Some(62)
    else if c == '_' || c == '/' then Some(63)
    else None
  }

  lemma SymbolMeans(n: Sextet)
    ensures Meaning(Symbol(n)) == Some(n) && Alphabet(Symbol(n)) && Symbol(n) != '='
  {}

  predicate InAlphabet(s: string) {
    forall i :: 0 <= i < |s| ==> Alphabet(s[i])
  }

  /** The symbols of a final group of one byte, of two, and of a full group. */
  function One(a: Byte): (s: string)
    ensures |s| == 2 && InAlphabet(s)
  {
    [Symbol(a / 4), Symbol(a % 4 * 16)]
  }

  function Two(a: Byte, b: Byte): (s: string)
    ensures |s| == 3 && InAlphabet(s)
  {
    [Symbol(a / 4), Symbol(a % 4 * 16 + b / 16), Symbol(b % 16 * 4)]
  }

  function Three(a: Byte, b: Byte, c: Byte): (s: string)
    ensures |s| == 4 && InAlphabet(s)
  {
    [Symbol(a / 4), Symbol(a % 4 * 16 + b / 16), Symbol(b % 16 * 4 + c / 64), Symbol(c % 64)]
  }

  function Padding(n: nat): string {
    if n == 0 then [] else Padding(n - 1) + ['=']
  }

  function EncodePadded(bs: seq<Byte>): string {
    if bs == [] then []
    else if |bs| == 1 then One(bs[0]) + Padding(2)
    else if |bs| == 2 then Two(bs[0], bs[1]) + Padding(1)
    else Three(bs[0], bs[1], bs[2]) + EncodePadded(bs[3..])
  }

  function StripPadding(s: string): string {
    if s != [] && s[|s| - 1] == '=' then StripPadding(s[..|s| - 1]) else s
  }

  function Encode(bs: seq<Byte>): string {
    StripPadding(EncodePadded(bs))
  }

  /**
    The lenient decoder, one character at a time: `quad` counts the symbols of the current group,
    `left` holds its bits not yet output, `pads` its padding. Foreign characters are skipped, complete
    padding ends the input, and None is the "incorrect padding" error.
   */
  function Scan(s: string, quad: nat, left: nat, pads: nat): Option<seq<Byte>>
    requires quad < 4 && left < 64
    requires quad == 2 ==> left < 16
    requires quad == 3 ==> left < 4
  {
    if s == [] then (if quad == 0 then Some([]) else None)
    else if s[0] == '=' then
      if quad >= 2 && quad + pads + 1 >= 4 then Some([])
      else Scan(s[1..], quad, left, if quad >= 2 then pads + 1 else pads)
    else match Meaning(s[0])
      case None => Scan(s[1..], quad, left, pads)
      case Some(n) =>
        if quad == 0 then Scan(s[1..], 1, n, 0)
        else if quad == 1 then Emit(left * 4 + n / 16, Scan(s[1..], 2, n % 16, 0))
        else if quad == 2 then Emit(left * 16 + n / 4, Scan(s[1..], 3, n % 4, 0))
        else Emit(left * 64 + n, Scan(s[1..], 0, 0, 0))
  }

  function Emit(b: Byte, rest: Option<seq<Byte>>): Option<seq<Byte>> {
    match rest
    case Some(bs) => Some([b] + bs)
    case None => None
  }

  /** -n % 4, with a remainder that is never negative. */
  function Missing(n: nat): nat {
    (4 - n % 4) % 4
  }

  /** _b64url_decode: pad to a multiple of four, then decode. */
  function Decode(s: string): Option<seq<Byte>> {
    Scan(s + Padding(Missing(|s|)), 0, 0, 0)
  }

  // ---- Round trip ----

  lemma ScanSymbol(n: Sextet, rest: string, quad: nat, left: nat, pads: nat)
    requires quad < 4 && left < 64 && (quad == 2 ==> left < 16) && (quad == 3 ==> left < 4)
    ensures Scan([Symbol(n)] + rest, quad, left, pads)
      == if quad == 0 then Scan(rest, 1, n, 0)
         else if quad == 1 then Emit(left * 4 + n / 16, Scan(rest, 2, n % 16, 0))
         else if quad == 2 then Emit(left * 16 + n / 4, Scan(rest, 3, n % 4, 0))
         else Emit(left * 64 + n, Scan(rest, 0, 0, 0))
  {
    SymbolMeans(n);
    assert ([Symbol(n)] + rest)[1..] == rest;
  }

  lemma ScanGroup(a: Sextet, b: Sextet, rest: string)
    ensures Scan([Symbol(a), Symbol(b)] + rest, 0, 0, 0) == Emit(a * 4 + b / 16, Scan(rest, 2, b % 16, 0))
  {
    ScanSymbol(a, [Symbol(b)] + rest, 0, 0, 0);
    ScanSymbol(b, rest, 1, a, 0);
    assert [Symbol(a)] + ([Symbol(b)] + rest) == [Symbol(a), Symbol(b)] + rest;
  }

  lemma ScanOne(a: Byte)
    ensures Scan(One(a) + Padding(2), 0, 0, 0) == Some([a])
  {
    var pad := Padding(2);
    ScanGroup(a / 4, a % 4 * 16, pad);
    assert pad == Padding(1) + ['='] && Padding(1) == Padding(0) + ['='];
    assert pad == ['=', '='] && pad[1..] == ['='];
    assert Scan(['='], 2, 0, 1) == Some([]);
    assert Scan(pad, 2, 0, 0) == Some([]);
    assert a % 4 * 16 % 16 == 0 && a / 4 * 4 + a % 4 * 16 / 16 == a;
    assert [a] + [] == [a];
  }

  lemma ScanThreeSymbols(p: Sextet, q: Sextet, r: Sextet, rest: string)
    ensures Scan([Symbol(p), Symbol(q), Symbol(r)] + rest, 0, 0, 0)
      == Emit(p * 4 + q / 16, Emit(q % 16 * 16 + r / 4, Scan(rest, 3, r % 4, 0)))
  {
    ScanGroup(p, q, [Symbol(r)] + rest);
    ScanSymbol(r, rest, 2, q % 16, 0);
    assert [Symbol(p), Symbol(q), Symbol(r)] + rest == [Symbol(p), Symbol(q)] + ([Symbol(r)] + rest);
  }

  lemma ScanFourSymbols(p: Sextet, q: Sextet, r: Sextet, t: Sextet, rest: string)
    ensures Scan([Symbol(p), Symbol(q), Symbol(r), Symbol(t)] + rest, 0, 0, 0)
      == Emit(p * 4 + q / 16, Emit(q % 16 * 16 + r / 4, Emit(r % 4 * 64 + t, Scan(rest, 0, 0, 0))))
  {
    ScanThreeSymbols(p, q, r, [Symbol(t)] + rest);
    ScanSymbol(t, rest, 3, r % 4, 0);
    assert [Symbol(p), Symbol(q), Symbol(r), Symbol(t)] + rest
      == [Symbol(p), Symbol(q), Symbol(r)] + ([Symbol(t)] + rest);
  }

  lemma ScanTwo(a: Byte, b: Byte)
    ensures Scan(Two(a, b) + Padding(1), 0, 0, 0) == Some([a, b])
  {
    var q, r := a % 4 * 16 + b / 16, b % 16 * 4;
    Bits(a, b, 0);
    assert Padding(1) == Padding(0) + ['='] == ['='];
    ScanThreeSymbols(a / 4, q, r, ['=']);
    assert Scan(['='], 3, r % 4, 0) == Some([]);
    EmitTwo(a, b);
  }

  lemma EmitTwo(a: Byte, b: Byte)
    ensures Emit(a, Emit(b, Some([]))) == Some([a, b])
  {
    assert [a] + ([b] + []) == [a, b];
  }

  lemma Bits(a: Byte, b: Byte, c: Byte)
    ensures var second, third := a % 4 * 16 + b / 16, b % 16 * 4 + c / 64;
      && a / 4 * 4 + second / 16 == a && second % 16 == b / 16
      && b / 16 * 16 + third / 4 == b && third % 4 == c / 64
      && c / 64 * 64 + c % 64 == c
  {}

  lemma ScanThree(a: Byte, b: Byte, c: Byte, rest: string)
    ensures Scan(Three(a, b, c) + rest, 0, 0, 0) == Emit(a, Emit(b, Emit(c, Scan(rest, 0, 0, 0))))
  {
    Bits(a, b, c);
    ScanFourSymbols(a / 4, a % 4 * 16 + b / 16, b % 16 * 4 + c / 64, c % 64, rest);
  }

  lemma {:induction false} PaddedRoundTrip(bs: seq<Byte>)
    ensures Scan(EncodePadded(bs), 0, 0, 0) == Some(bs)
  {
    if bs == [] {
    } else if |bs| == 1 {
      ScanOne(bs[0]);
      assert bs == [bs[0]];
    } else if |bs| == 2 {
      ScanTwo(bs[0], bs[1]);
      assert bs == [bs[0], bs[1]];
    } else {
      PaddedRoundTrip(bs[3..]);
      ScanThree(bs[0], bs[1], bs[2], EncodePadded(bs[3..]));
      assert [bs[0]] + ([bs[1]] + ([bs[2]] + bs[3..])) == bs;
    }
  }

  lemma {:induction false} PaddingLength(n: nat)
    ensures |Padding(n)| == n
  {
    if n > 0 {
      PaddingLength(n - 1);
    }
  }

  /** Padding comes off whatever symbols it follows, and only padding does. */
  lemma {:induction false} PaddingStrips(head: string, n: nat)
    requires InAlphabet(head)
    ensures StripPadding(head + Padding(n)) == head
  {
    if n == 0 {
      assert head + Padding(0) == head;
      assert head != [] ==> Alphabet(head[|head| - 1]);
    } else {
      PaddingStrips(head, n - 1);
      StripOne(head + Padding(n - 1));
      assert head + Padding(n) == head + Padding(n - 1) + ['='];
    }
  }

  lemma StripOne(s: string)
    ensures StripPadding(s + ['=']) == StripPadding(s)
  {
    assert (s + ['='])[..|s|] == s;
  }

  /** The encoding is the padded one minus its padding, and exactly the padding that decoding puts back. */
  lemma {:induction false} EncodeShape(bs: seq<Byte>)
    ensures InAlphabet(Encode(bs))
    ensures Encode(bs) + Padding(Missing(|Encode(bs)|)) == EncodePadded(bs)
    ensures bs != [] ==> Encode(bs) != []
  {
    if bs == [] {
    } else if |bs| == 1 {
      PaddingStrips(One(bs[0]), 2);
      PaddingLength(2);
    } else if |bs| == 2 {
      PaddingStrips(Two(bs[0], bs[1]), 1);
      PaddingLength(1);
    } else {
      EncodeShape(bs[3..]);
      AnotherGroup(Three(bs[0], bs[1], bs[2]), Encode(bs[3..]));
    }
  }

  lemma MissingAgain(n: nat)
    ensures Missing(4 + n) == Missing(n)
  {}

  lemma AnotherGroup(head: string, tail: string)
    requires InAlphabet(head) && InAlphabet(tail) && |head| == 4
    ensures StripPadding(head + (tail + Padding(Missing(|tail|)))) == head + tail
    ensures (head + tail) + Padding(Missing(|head + tail|)) == head + (tail + Padding(Missing(|tail|)))
    ensures InAlphabet(head + tail)
  {
    var n := Missing(|tail|);
    MissingAgain(|tail|);
    assert |head + tail| == 4 + |tail|;
    Regroup(head, tail, Padding(n));
    PaddingStrips(head + tail, n);
  }

  lemma Regroup(a: string, b: string, c: string)
    ensures a + (b + c) == (a + b) + c
  {}

  /** Every byte string, of every length modulo three, decodes back to itself. */
  lemma RoundTrip(bs: seq<Byte>)
    ensures Decode(Encode(bs)) == Some(bs)
  {
    EncodeShape(bs);
    PaddedRoundTrip(bs);
  }

  lemma EncodeInjective(a: seq<Byte>, b: seq<Byte>)
    ensures Encode(a) == Encode(b) <==> a == b
  {
    RoundTrip(a);
    RoundTrip(b);
  }

  // ---- The number behind the digits ----

  /** Three bytes, read as one number, are written in four digits of base 64, the highest first. */
  lemma ThreeBytesAreFourDigits(a: Byte, b: Byte, c: Byte, rest: seq<Byte>)
    returns (p: Sextet, q: Sextet, r: Sextet, t: Sextet)
    ensures p * 262144 + q * 4096 + r * 64 + t == a * 65536 + b * 256 + c
    ensures EncodePadded([a, b, c] + rest) == [Symbol(p), Symbol(q), Symbol(r), Symbol(t)] + EncodePadded(rest)
  {
    p, q, r, t := a / 4, a % 4 * 16 + b / 16, b % 16 * 4 + c / 64, c % 64;
    assert ([a, b, c] + rest)[3..] == rest;
  }

  /** Two bytes in the end take three digits, the last filled with zero bits. */
  lemma TwoLastBytes(a: Byte, b: Byte) returns (p: Sextet, q: Sextet, r: Sextet)
    ensures p * 4096 + q * 64 + r == (a * 256 + b) * 4
    ensures EncodePadded([a, b]) == [Symbol(p), Symbol(q), Symbol(r), '=']
  {
    p, q, r := a / 4, a % 4 * 16 + b / 16, b % 16 * 4;
    assert Padding(0) == [] && Padding(1) == ['='];
  }

  /** One byte takes two. */
  lemma OneLastByte(a: Byte) returns (p: Sextet, q: Sextet)
    ensures p * 64 + q == a * 16 && EncodePadded([a]) == [Symbol(p), Symbol(q), '=', '=']
  {
    p, q := a / 4, a % 4 * 16;
    assert Padding(0) == [] && Padding(1) == ['='] && Padding(2) == ['=', '='];
  }
}
