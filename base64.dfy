/** The base64 encoding of section 4 of RFC 4648, as `base64.b64encode`
    applies it to the `key:secret` credentials, together with the ASCII
    codec the source wraps around it and a decoder that inverts it. */
module Base64 {
  import opened Wrappers

  type Byte = x: int | 0 <= x < 256
  type Sextet = x: int | 0 <= x < 64

  const PadChar: char := '='

  /** Table 1 of RFC 4648: A-Z, a-z, 0-9, '+', '/'. */
  function CharOf(i: Sextet): (c: char)
    ensures IsAlphabetChar(c) && IndexOf(c) == i
  {
    if i < 26 then ('A' as int + i) as char
    else if i < 52 then ('a' as int + (i - 26)) as char
    else if i < 62 then ('0' as int + (i - 52)) as char
    else if i == 62 then '+'
    else '/'
  }

  predicate IsAlphabetChar(c: char) {
    'A' <= c <= 'Z' || 'a' <= c <= 'z' || '0' <= c <= '9' || c == '+' || c == '/'
  }

  function IndexOf(c: char): Sextet
    requires IsAlphabetChar(c)
  {
    if 'A' <= c <= 'Z' then c as int - 'A' as int
    else if 'a' <= c <= 'z' then c as int - 'a' as int + 26
    else if '0' <= c <= '9' then c as int - '0' as int + 52
    else if c == '+' then 62
    else 63
  }

  /** Three octets become four characters, six bits each, most significant first. */
  function EncodeQuantum(a: Byte, b: Byte, c: Byte): string {
    [CharOf(a / 4), CharOf((a % 4) * 16 + b / 16), CharOf((b % 16) * 4 + c / 64), CharOf(c % 64)]
  }

  function Encode(bs: seq<Byte>): (s: string)
    ensures |s| == 4 * ((|bs| + 2) / 3)
    ensures forall k :: 0 <= k < |s| ==> IsAlphabetChar(s[k]) || s[k] == PadChar
    decreases |bs|
  {
    if |bs| == 0 then ""
    else if |bs| == 1 then
      [CharOf(bs[0] / 4), CharOf((bs[0] % 4) * 16), PadChar, PadChar]
    else if |bs| == 2 then
      [CharOf(bs[0] / 4), CharOf((bs[0] % 4) * 16 + bs[1] / 16), CharOf((bs[1] % 16) * 4), PadChar]
    else
      EncodeQuantum(bs[0], bs[1], bs[2]) + Encode(bs[3..])
  }

  /** Four characters back to three octets; a trailing "=" or "==" marks a
      final quantum of two octets or one. The bits a padded quantum leaves
      over must be zero, as section 3.5 of RFC 4648 has encoders set them. */
  function DecodeQuantum(q: string): Option<seq<Byte>>
    requires |q| == 4
  {
    if IsAlphabetChar(q[0]) && IsAlphabetChar(q[1]) then
      var i0, i1 := IndexOf(q[0]), IndexOf(q[1]);
      if q[2] == PadChar && q[3] == PadChar then
        if i1 % 16 == 0 then Some([i0 * 4 + i1 / 16]) else None
      else if IsAlphabetChar(q[2]) && q[3] == PadChar then
        var i2 := IndexOf(q[2]);
        if i2 % 4 == 0 then Some([i0 * 4 + i1 / 16, (i1 % 16) * 16 + i2 / 4]) else None
      else if IsAlphabetChar(q[2]) && IsAlphabetChar(q[3]) then
        var i2, i3 := IndexOf(q[2]), IndexOf(q[3]);
        Some([i0 * 4 + i1 / 16, (i1 % 16) * 16 + i2 / 4, (i2 % 4) * 64 + i3])
      else None
    else None
  }

  function Decode(s: string): Option<seq<Byte>>
    decreases |s|
  {
    if s == [] then Some([])
    else if |s| < 4 then None
    else match DecodeQuantum(s[..4])
      case None => None
      case Some(head) =>
        if |head| < 3 && |s| > 4 then None  // padding only in the last quantum
        else match Decode(s[4..])
          case None => None
          case Some(tail) => Some(head + tail)
  }

  lemma FullQuantumRoundTrip(a: Byte, b: Byte, c: Byte)
    ensures DecodeQuantum(EncodeQuantum(a, b, c)) == Some([a, b, c])
  {
    var i1 := (a % 4) * 16 + b / 16;
    var i2 := (b % 16) * 4 + c / 64;
    assert i1 / 16 == a % 4 && i1 % 16 == b / 16;
    assert i2 / 4 == b % 16 && i2 % 4 == c / 64;
  }

  lemma OneOctetRoundTrip(a: Byte)
    ensures Decode(Encode([a])) == Some([a])
  {
    var s := Encode([a]);
    var i1 := (a % 4) * 16;
    assert i1 / 16 == a % 4;
    assert IndexOf(s[0]) == a / 4 && IndexOf(s[1]) == i1;
    assert s[..4] == s && s[4..] == [];
    assert DecodeQuantum(s[..4]) == Some([a]);
    assert Decode(s[4..]) == Some([]);
    assert [a] + [] == [a];
  }

  lemma TwoOctetRoundTrip(a: Byte, b: Byte)
    ensures Decode(Encode([a, b])) == Some([a, b])
  {
    var s := Encode([a, b]);
    var i1 := (a % 4) * 16 + b / 16;
    var i2 := (b % 16) * 4;
    assert i1 / 16 == a % 4 && i1 % 16 == b / 16 && i2 / 4 == b % 16;
    assert s[2] == CharOf(i2) && s[2] != PadChar;
    assert IndexOf(s[0]) == a / 4 && IndexOf(s[1]) == i1 && IndexOf(s[2]) == i2;
    assert s[..4] == s && s[4..] == [];
    assert DecodeQuantum(s[..4]) == Some([a, b]);
    assert Decode(s[4..]) == Some([]);
    assert [a, b] + [] == [a, b];
  }

  /** Decoding undoes encoding, for every octet string. */
  lemma {:induction false} DecodeEncode(bs: seq<Byte>)
    ensures Decode(Encode(bs)) == Some(bs)
    decreases |bs|
  {
    if |bs| == 1 {
      OneOctetRoundTrip(bs[0]);
      assert [bs[0]] == bs;
    } else if |bs| == 2 {
      TwoOctetRoundTrip(bs[0], bs[1]);
      assert [bs[0], bs[1]] == bs;
    } else if |bs| >= 3 {
      var s := Encode(bs);
      var q := EncodeQuantum(bs[0], bs[1], bs[2]);
      assert s[..4] == q && s[4..] == Encode(bs[3..]);
      FullQuantumRoundTrip(bs[0], bs[1], bs[2]);
      DecodeEncode(bs[3..]);
      assert [bs[0], bs[1], bs[2]] + bs[3..] == bs;
    }
  }

  lemma CharOfIndexOf(c: char)
    requires IsAlphabetChar(c)
    ensures CharOf(IndexOf(c)) == c
  {
  }

  /** The bit arithmetic of a quantum: splitting the octets that four
      sextets join gives the sextets back. */
  lemma JoinSplit(i0: int, i1: int, i2: int, i3: int, a: int, b: int, c: int)
    requires 0 <= i0 < 64 && 0 <= i1 < 64 && 0 <= i2 < 64 && 0 <= i3 < 64
    requires a == i0 * 4 + i1 / 16 && b == (i1 % 16) * 16 + i2 / 4 && c == (i2 % 4) * 64 + i3
    ensures 0 <= a < 256 && 0 <= b < 256 && 0 <= c < 256
    ensures a / 4 == i0 && (a % 4) * 16 + b / 16 == i1
    ensures (b % 16) * 4 + c / 64 == i2 && c % 64 == i3
  {
  }

  /** Four alphabet characters are the encoding of the three octets they decode to. */
  lemma FullQuantumCanonical(q: string)
    requires |q| == 4 && IsAlphabetChar(q[0]) && IsAlphabetChar(q[1]) && IsAlphabetChar(q[2]) && IsAlphabetChar(q[3])
    ensures DecodeQuantum(q).Some? && |DecodeQuantum(q).value| == 3
    ensures var o := DecodeQuantum(q).value; EncodeQuantum(o[0], o[1], o[2]) == q
  {
    var i0: int, i1: int, i2: int, i3: int := IndexOf(q[0]), IndexOf(q[1]), IndexOf(q[2]), IndexOf(q[3]);
    var a: int, b: int, c: int := i0 * 4 + i1 / 16, (i1 % 16) * 16 + i2 / 4, (i2 % 4) * 64 + i3;
    JoinSplit(i0, i1, i2, i3, a, b, c);
    assert DecodeQuantum(q) == Some([a, b, c]);
    CharOfIndexOf(q[0]);
    CharOfIndexOf(q[1]);
    CharOfIndexOf(q[2]);
    CharOfIndexOf(q[3]);
    QuantumOfSextets(a, b, c, i0, i1, i2, i3);
    assert q == [q[0], q[1], q[2], q[3]];
  }

  lemma QuantumOfSextets(a: Byte, b: Byte, c: Byte, i0: Sextet, i1: Sextet, i2: Sextet, i3: Sextet)
    requires a / 4 == i0 && (a % 4) * 16 + b / 16 == i1 && (b % 16) * 4 + c / 64 == i2 && c % 64 == i3
    ensures EncodeQuantum(a, b, c) == [CharOf(i0), CharOf(i1), CharOf(i2), CharOf(i3)]
  {
  }

  /** "xy==" decodes only when its spare bits are zero, and is then the encoding of its one octet. */
  lemma OneOctetCanonical(q: string)
    requires |q| == 4 && DecodeQuantum(q).Some? && q[2] == PadChar && q[3] == PadChar
    ensures |DecodeQuantum(q).value| == 1 && Encode(DecodeQuantum(q).value) == q
  {
    var i0: int, i1: int := IndexOf(q[0]), IndexOf(q[1]);
    var a: int := i0 * 4 + i1 / 16;
    JoinSplit(i0, i1, 0, 0, a, (i1 % 16) * 16, 0);
    assert DecodeQuantum(q) == Some([a]);
    assert i1 % 16 == 0 && (a % 4) * 16 == i1;
    CharOfIndexOf(q[0]);
    CharOfIndexOf(q[1]);
    assert Encode([a]) == [CharOf(i0), CharOf(i1), PadChar, PadChar];
  }

  /** "xyz=" decodes only when its spare bits are zero, and is then the encoding of its two octets. */
  lemma TwoOctetCanonical(q: string)
    requires |q| == 4 && DecodeQuantum(q).Some? && q[2] != PadChar && q[3] == PadChar
    ensures |DecodeQuantum(q).value| == 2 && Encode(DecodeQuantum(q).value) == q
  {
    var i0: int, i1: int, i2: int := IndexOf(q[0]), IndexOf(q[1]), IndexOf(q[2]);
    var a: int, b: int := i0 * 4 + i1 / 16, (i1 % 16) * 16 + i2 / 4;
    JoinSplit(i0, i1, i2, 0, a, b, (i2 % 4) * 64);
    assert DecodeQuantum(q) == Some([a, b]);
    assert i2 % 4 == 0 && (b % 16) * 4 == i2;
    CharOfIndexOf(q[0]);
    CharOfIndexOf(q[1]);
    CharOfIndexOf(q[2]);
    assert Encode([a, b]) == [CharOf(i0), CharOf(i1), CharOf(i2), PadChar];
  }

  /** Encoding undoes decoding: a string the decoder accepts is the encoding
      of what it decodes to, so `Encode` gives the one canonical encoding
      and the decoder accepts no other. */
  lemma {:induction false} EncodeDecode(s: string)
    requires Decode(s).Some?
    ensures Encode(Decode(s).value) == s
    decreases |s|
  {
    if s != [] {
      var q := s[..4];
      var head := DecodeQuantum(q).value;
      if q[3] == PadChar {
        if q[2] == PadChar {
          OneOctetCanonical(q);
        } else {
          TwoOctetCanonical(q);
        }
        assert s[4..] == [] && s == q;
        assert Decode(s) == Some(head + []);
        assert head + [] == head;
      } else {
        FullQuantumCanonical(q);
        var tail := Decode(s[4..]).value;
        EncodeDecode(s[4..]);
        var bs := head + tail;
        assert Decode(s) == Some(bs);
        assert bs[0] == head[0] && bs[1] == head[1] && bs[2] == head[2] && bs[3..] == tail;
        assert Encode(bs) == EncodeQuantum(head[0], head[1], head[2]) + Encode(tail);
        assert s == q + s[4..];
      }
    }
  }

  /** `s.encode('ascii')`: fails (UnicodeEncodeError) on any code point above 127. */
  function AsciiEncode(s: string): (r: Option<seq<Byte>>)
    ensures r.Some? <==> forall k :: 0 <= k < |s| ==> s[k] as int < 128
    ensures r.Some? ==> |r.value| == |s| && forall k :: 0 <= k < |s| ==> r.value[k] == s[k] as int
  {
    if s == [] then Some([])
    else if s[0] as int >= 128 then None
    else match AsciiEncode(s[1..])
      case None => None
      case Some(tail) => Some([s[0] as int] + tail)
  }

  /** The characters a server reads back from decoded credential octets,
      one per octet with that code (the inverse of `AsciiEncode`). */
  function AsciiDecode(bs: seq<Byte>): (s: string)
    ensures |s| == |bs| && forall k :: 0 <= k < |bs| ==> s[k] as int == bs[k]
  {
    seq(|bs|, k requires 0 <= k < |bs| => bs[k] as char)
  }

  lemma AsciiRoundTrip(s: string)
    requires AsciiEncode(s).Some?
    ensures AsciiDecode(AsciiEncode(s).value) == s
  {
  }
}
