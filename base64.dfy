/** The standard padded base64 encoding of section 4 of RFC 4648, as the screenshot endpoint
    applies it to the PNG bytes it receives from the browser. The decoder is not part of the
    service; it is here as the partner that shows the encoding loses nothing. */
module Base64 {
  import opened Wrappers

  type Byte = x: int | 0 <= x < 256

  /** A 6-bit group, the value one character of the encoding carries. */
  type Sextet = x: int | 0 <= x < 64

  /** A character of the base64 alphabet (Table 1 of RFC 4648): 'A'-'Z', 'a'-'z', '0'-'9', '+', '/'. */
  predicate IsAlphabetChar(c: char) {
    ('A' <= c <= 'Z') || ('a' <= c <= 'z') || ('0' <= c <= '9') || c == '+' || c == '/'
  }

  /** The character that encodes a 6-bit value. */
  function CharOf(v: Sextet): (c: char)
    ensures IsAlphabetChar(c)
    ensures v < 26 <==> 'A' <= c <= 'Z'
    ensures 26 <= v < 52 <==> 'a' <= c <= 'z'
  {
    if v < 26 then ('A' as int + v) as char
    else if v < 52 then ('a' as int + (v - 26)) as char
    else if v < 62 then ('0' as int + (v - 52)) as char
    else if v == 62 then '+'
    else '/'
  }

  /** The 6-bit value a character encodes; None for the pad character and anything outside the alphabet. */
  function ValueOf(c: char): (r: Option<Sextet>)
    ensures r.Some? <==> IsAlphabetChar(c)
  {
    if 'A' <= c <= 'Z' then Some(c as int - 'A' as int)
    else if 'a' <= c <= 'z' then Some(c as int - 'a' as int + 26)
    else if '0' <= c <= '9' then Some(c as int - '0' as int + 52)
    else if c == '+' then Some(62)
    else if c == '/' then Some(63)
    else None
  }

  /** Each character of the alphabet stands for exactly one value. */
  lemma ValueOfCharOf(v: Sextet)
    ensures ValueOf(CharOf(v)) == Some(v)
  {
  }

  /** How many pad characters end the encoding of `n` bytes. */
  function Padding(n: nat): (p: nat)
    ensures p <= 2
    ensures p == 0 <==> n % 3 == 0
  {
    (3 - n % 3) % 3
  }

  /** `STANDARD.encode`: every 3 bytes become 4 characters; a final group of 1 or 2 bytes is
      padded with zero bits and completed with "==" or "=". */
  function Encode(data: seq<Byte>): string
    decreases |data|
  {
    if |data| == 0 then ""
    else if |data| == 1 then
      [CharOf(data[0] / 4), CharOf(data[0] % 4 * 16), '=', '=']
    else if |data| == 2 then
      [CharOf(data[0] / 4), CharOf(data[0] % 4 * 16 + data[1] / 16), CharOf(data[1] % 16 * 4), '=']
    else
      GroupChars(data[0], data[1], data[2]) + Encode(data[3..])
  }

  // The bytes of a group, rebuilt from its 6-bit values.

  function FirstByte(v0: Sextet, v1: Sextet): Byte { (v0 as int) * 4 + (v1 as int) / 16 }

  function SecondByte(v1: Sextet, v2: Sextet): Byte { (v1 as int) % 16 * 16 + (v2 as int) / 4 }

  function ThirdByte(v2: Sextet, v3: Sextet): Byte { (v2 as int) % 4 * 64 + (v3 as int) }

  /** The three bytes carried by four characters of the alphabet. */
  function DecodeGroup(q: string): (r: Option<seq<Byte>>)
    requires |q| == 4
    ensures r.Some? <==> forall i :: 0 <= i < 4 ==> IsAlphabetChar(q[i])
    ensures r.Some? ==> |r.value| == 3
  {
    match (ValueOf(q[0]), ValueOf(q[1]), ValueOf(q[2]), ValueOf(q[3]))
    case (Some(v0), Some(v1), Some(v2), Some(v3)) =>
      Some([FirstByte(v0, v1), SecondByte(v1, v2), ThirdByte(v2, v3)])
    case _ => None
  }

  /** The last group, which may end in "=" (two bytes) or "==" (one byte). */
  function DecodeLastGroup(q: string): (r: Option<seq<Byte>>)
    requires |q| == 4
    ensures r.Some? ==> 1 <= |r.value| <= 3
  {
    if q[2] == '=' && q[3] == '=' then
      match (ValueOf(q[0]), ValueOf(q[1]))
      case (Some(v0), Some(v1)) => Some([FirstByte(v0, v1)])
      case _ => None
    else if q[3] == '=' then
      match (ValueOf(q[0]), ValueOf(q[1]), ValueOf(q[2]))
      case (Some(v0), Some(v1), Some(v2)) => Some([FirstByte(v0, v1), SecondByte(v1, v2)])
      case _ => None
    else DecodeGroup(q)
  }

  /** Decoding of the padded encoding; None when the text is not one. */
  function Decode(s: string): (r: Option<seq<Byte>>)
    ensures r.Some? ==> |s| % 4 == 0
    decreases |s|
  {
    if |s| == 0 then Some([])
    else if |s| < 4 then None
    else if |s| == 4 then DecodeLastGroup(s)
    else
      var group := DecodeGroup(s[..4]);
      var rest := Decode(s[4..]);
      assert |s| == |s[4..]| + 4;
      if group.None? || rest.None? then None else Some(group.value + rest.value)
  }

  // Each byte comes back from the 6-bit values its group was split into.

  lemma FirstByteBack(a: Byte, b: Byte)
    ensures FirstByte(a / 4, a % 4 * 16 + b / 16) == a
  {
  }

  lemma SecondByteBack(a: Byte, b: Byte, c: Byte)
    ensures SecondByte(a % 4 * 16 + b / 16, b % 16 * 4 + c / 64) == b
  {
  }

  lemma ThirdByteBack(b: Byte, c: Byte)
    ensures ThirdByte(b % 16 * 4 + c / 64, c % 64) == c
  {
  }

  /** A full group of three bytes survives its four characters. */
  lemma GroupRoundTrip(a: Byte, b: Byte, c: Byte)
    ensures DecodeGroup(GroupChars(a, b, c)) == Some([a, b, c])
  {
    var q := GroupChars(a, b, c);
    ValueOfCharOf(a / 4);
    ValueOfCharOf(a % 4 * 16 + b / 16);
    ValueOfCharOf(b % 16 * 4 + c / 64);
    ValueOfCharOf(c % 64);
    FirstByteBack(a, b);
    SecondByteBack(a, b, c);
    ThirdByteBack(b, c);
    assert DecodeGroup(q) == Some([FirstByte(a / 4, a % 4 * 16 + b / 16),
                                   SecondByte(a % 4 * 16 + b / 16, b % 16 * 4 + c / 64),
                                   ThirdByte(b % 16 * 4 + c / 64, c % 64)]);
  }

  /** A final single byte survives its "xx==" group. */
  lemma OneByteRoundTrip(a: Byte)
    ensures DecodeLastGroup([CharOf(a / 4), CharOf(a % 4 * 16), '=', '=']) == Some([a])
  {
    ValueOfCharOf(a / 4);
    ValueOfCharOf(a % 4 * 16);
    FirstByteBack(a, 0);
  }

  /** A final pair of bytes survives its "xxx=" group. */
  lemma TwoByteRoundTrip(a: Byte, b: Byte)
    ensures DecodeLastGroup([CharOf(a / 4), CharOf(a % 4 * 16 + b / 16), CharOf(b % 16 * 4), '='])
            == Some([a, b])
  {
    var q := [CharOf(a / 4), CharOf(a % 4 * 16 + b / 16), CharOf(b % 16 * 4), '='];
    ValueOfCharOf(a / 4);
    ValueOfCharOf(a % 4 * 16 + b / 16);
    ValueOfCharOf(b % 16 * 4);
    FirstByteBack(a, b);
    SecondByteBack(a, b, 0);
    assert q[2] != '=';
  }

  /** A full group followed by more groups decodes to the group's bytes followed by the rest's. */
  lemma DecodeGroupThenRest(group: string, rest: string)
    requires |group| == 4 && |rest| > 0
    requires DecodeGroup(group).Some? && Decode(rest).Some?
    ensures Decode(group + rest) == Some(DecodeGroup(group).value + Decode(rest).value)
  {
    assert (group + rest)[..4] == group;
    assert (group + rest)[4..] == rest;
  }

  /** The four characters a full group of three bytes is encoded as. */
  function GroupChars(a: Byte, b: Byte, c: Byte): (q: string)
    ensures |q| == 4
    ensures forall i :: 0 <= i < 4 ==> IsAlphabetChar(q[i])
  {
    [CharOf(a / 4), CharOf(a % 4 * 16 + b / 16), CharOf(b % 16 * 4 + c / 64), CharOf(c % 64)]
  }

  lemma EncodeFullGroup(data: seq<Byte>)
    requires |data| >= 3
    ensures Encode(data) == GroupChars(data[0], data[1], data[2]) + Encode(data[3..])
  {
  }

  /** One or two bytes come back from their single padded group. */
  lemma ShortRoundTrip(data: seq<Byte>)
    requires 1 <= |data| <= 2
    ensures Decode(Encode(data)) == Some(data)
  {
    if |data| == 1 {
      OneByteRoundTrip(data[0]);
      assert data == [data[0]];
    } else {
      TwoByteRoundTrip(data[0], data[1]);
      assert data == [data[0], data[1]];
    }
  }

  /** The shape of the encoding: four characters for every started group of three bytes,
      the pad character exactly in the last `Padding` positions, alphabet characters elsewhere. */
  lemma {:induction false} EncodeShape(data: seq<Byte>)
    ensures |Encode(data)| == 4 * ((|data| + 2) / 3)
    ensures forall i :: 0 <= i < |Encode(data)| ==> (Encode(data)[i] == '=' <==> |Encode(data)| - Padding(|data|) <= i)
    ensures forall i :: 0 <= i < |Encode(data)| && Encode(data)[i] != '=' ==> IsAlphabetChar(Encode(data)[i])
    decreases |data|
  {
    if |data| >= 3 {
      var group := GroupChars(data[0], data[1], data[2]);
      var rest := Encode(data[3..]);
      EncodeShape(data[3..]);
      EncodeFullGroup(data);
      var e := group + rest;
      assert Padding(|data|) == Padding(|data| - 3);
      assert |e| == 4 + |rest|;
      forall i | 0 <= i < |e|
        ensures (e[i] == '=' <==> |e| - Padding(|data|) <= i)
        ensures e[i] != '=' ==> IsAlphabetChar(e[i])
      {
        if i < 4 {
          assert e[i] == group[i];
        } else {
          assert e[i] == rest[i - 4];
        }
      }
    }
  }

  /** Three bytes come back from their single unpadded group. */
  lemma ThreeByteRoundTrip(data: seq<Byte>)
    requires |data| == 3
    ensures Decode(Encode(data)) == Some(data)
  {
    var group := GroupChars(data[0], data[1], data[2]);
    GroupRoundTrip(data[0], data[1], data[2]);
    EncodeFullGroup(data);
    assert Encode(data[3..]) == [];
    assert Encode(data) == group;
    assert data == [data[0], data[1], data[2]];
  }

  /** The encoding of at least one byte holds at least one group. */
  lemma EncodeNonEmpty(data: seq<Byte>)
    requires |data| > 0
    ensures |Encode(data)| >= 4
  {
  }

  /** The encoding loses nothing: decoding it gives back the bytes. */
  lemma {:induction false} DecodeEncode(data: seq<Byte>)
    ensures Decode(Encode(data)) == Some(data)
    decreases |data|
  {
    if |data| == 0 {
    } else if |data| <= 2 {
      ShortRoundTrip(data);
    } else if |data| == 3 {
      ThreeByteRoundTrip(data);
    } else {
      DecodeEncode(data[3..]);
      DecodeEncodeStep(data);
    }
  }

  lemma SplitFirstThree<T>(d: seq<T>)
    requires |d| >= 3
    ensures [d[0], d[1], d[2]] + d[3..] == d
  {
  }

  /** A full group in front of an encoding that decodes correctly decodes correctly too. */
  lemma DecodeEncodeStep(data: seq<Byte>)
    requires |data| > 3
    requires Decode(Encode(data[3..])) == Some(data[3..])
    ensures Decode(Encode(data)) == Some(data)
  {
    var head := [data[0], data[1], data[2]];
    var group := GroupChars(data[0], data[1], data[2]);
    var rest := Encode(data[3..]);
    EncodeFullGroup(data);
    assert A: Encode(data) == group + rest;
    GroupRoundTrip(data[0], data[1], data[2]);
    assert B: DecodeGroup(group) == Some(head);
    EncodeNonEmpty(data[3..]);
    DecodeGroupThenRest(group, rest);
    assert C: Decode(group + rest) == Some(head + data[3..]);
    SplitFirstThree(data);
  }

  /** Two different byte strings never share an encoding. */
  lemma EncodeInjective(a: seq<Byte>, b: seq<Byte>)
    requires Encode(a) == Encode(b)
    ensures a == b
  {
    DecodeEncode(a);
    DecodeEncode(b);
  }
}
