/** Unpadded base64url (section 5 of RFC 4648), as padding stripped and put back. */
module Base64Url {
  import opened Wrappers
  import opened Octets

  type Sextet = n: int | 0 <= n < 64

  function Letter(n: Sextet): char {
    if n < 26 then ('A' as int + n) as char
    else if n < 52 then ('a' as int + n - 26) as char
    else if n < 62 then ('0' as int + n - 52) as char
    else if n == 62 then '-' else '_'
  }

  function Value(c: char): Option<Sextet> {
    if 'A' <= c <= 'Z' then Some(c as int - 'A' as int)
    else if 'a' <= c <= 'z' then Some(c as int - 'a' as int + 26)
    else if '0' <= c <= '9' then Some(c as int - '0' as int + 52)
    else if c == '-' then Some(62)
    else if c == '_' then Some(63)
    else None
  }

  lemma LetterValue(n: Sextet)
    ensures Value(Letter(n)) == Some(n) && Letter(n) != '='
  {
  }

  /** Three bytes as four letters. */
  function Group(x: Byte, y: Byte, z: Byte): string {
    [Letter(x / 4), Letter(x % 4 * 16 + y / 16), Letter(y % 16 * 4 + z / 64), Letter(z % 64)]
  }

  /** urlsafe_b64encode: groups of three bytes, the last one padded. */
  function Encode(bs: seq<Byte>): string {
    if bs == [] then ""
    else if |bs| == 1 then [Letter(bs[0] / 4), Letter(bs[0] % 4 * 16), '=', '=']
    else if |bs| == 2 then
      [Letter(bs[0] / 4), Letter(bs[0] % 4 * 16 + bs[1] / 16), Letter(bs[1] % 16 * 4), '=']
    else
      Group(bs[0], bs[1], bs[2]) + Encode(bs[3..])
  }

  /** urlsafe_b64decode of a padded string over the alphabet. */
  function Decode(s: string): Option<seq<Byte>> {
    if s == "" then Some([])
    else if |s| < 4 || Value(s[0]).None? || Value(s[1]).None? then None
    else
      var a, b := Value(s[0]).value, Value(s[1]).value;
      if s[2..] == "==" then Some([a * 4 + b / 16])
      else if Value(s[2]).None? then None
      else
        var c := Value(s[2]).value;
        if s[3..] == "=" then Some([a * 4 + b / 16, b % 16 * 16 + c / 4])
        else if Value(s[3]).None? then None
        else
          var rest := Decode(s[4..]);
          if rest.None? then None
          else Some([a * 4 + b / 16, b % 16 * 16 + c / 4, c % 4 * 64 + Value(s[3]).value] + rest.value)
  }

  /** rstrip("=") */
  function Strip(s: string): string {
    if s != "" && s[|s| - 1] == '=' then Strip(s[..|s| - 1]) else s
  }

  function Padding(n: nat): string {
    seq(n, _ => '=')
  }

  function PadCount(n: int): nat {
    (-n) % 4
  }

  /** s + "=" * (-len(s) % 4) */
  function Repad(s: string): string {
    s + Padding(PadCount(|s|))
  }

  function B64Url(bs: seq<Byte>): string {
    Strip(Encode(bs))
  }

  function UnB64Url(s: string): Option<seq<Byte>> {
    Decode(Repad(s))
  }

  // ----- the text itself -----

  /** The alphabet of table 2 of section 5 of RFC 4648: A to Z, a to z, 0 to 9, then two signs. */
  lemma LettersRun(n: Sextet)
    ensures Letter(0) == 'A' && Letter(25) == 'Z' && Letter(26) == 'a' && Letter(51) == 'z'
    ensures Letter(52) == '0' && Letter(61) == '9' && Letter(62) == '-' && Letter(63) == '_'
    ensures n < 61 && n != 25 && n != 51 ==> Letter(n + 1) as int == Letter(n) as int + 1
  {
  }

  /** Three bytes and their four letters are the same 24 bits, the most significant first. */
  lemma GroupIsSameBits(x: Byte, y: Byte, z: Byte) returns (a: Sextet, b: Sextet, c: Sextet, d: Sextet)
    ensures Group(x, y, z) == [Letter(a), Letter(b), Letter(c), Letter(d)]
    ensures 0x1_0000 * x + 0x100 * y + z == 0x4_0000 * a + 0x1000 * b + 0x40 * c + d
  {
    a, b, c, d := x / 4, x % 4 * 16 + y / 16, y % 16 * 4 + z / 64, z % 64;
  }

  /** One and two bytes left over are the leading bits of two and three letters. */
  lemma TailsAreSameBits(x: Byte, y: Byte) returns (a: Sextet, b: Sextet, b': Sextet, c: Sextet)
    ensures Encode([x]) == [Letter(a), Letter(b), '=', '='] && 0x10 * x == 0x40 * a + b
    ensures Encode([x, y]) == [Letter(a), Letter(b'), Letter(c), '=']
    ensures 0x4 * (0x100 * x + y) == 0x1000 * a + 0x40 * b' + c
  {
    a, b, b', c := x / 4, x % 4 * 16, x % 4 * 16 + y / 16, y % 16 * 4;
  }

  // ----- the round trip -----

  predicate Plain(s: string) {
    forall i :: 0 <= i < |s| ==> Value(s[i]).Some?
  }

  lemma Regroup(x: Byte, y: Byte, z: Byte)
    ensures x / 4 * 4 + (x % 4 * 16 + y / 16) / 16 == x
    ensures (x % 4 * 16 + y / 16) % 16 * 16 + (y % 16 * 4 + z / 64) / 4 == y
    ensures (y % 16 * 4 + z / 64) % 4 * 64 + z % 64 == z
  {
  }

  lemma DecodeStep(s: string, a: Sextet, b: Sextet, c: Sextet, d: Sextet)
    requires |s| >= 4 && Value(s[0]) == Some(a) && Value(s[1]) == Some(b)
    requires Value(s[2]) == Some(c) && Value(s[3]) == Some(d) && Decode(s[4..]).Some?
    requires s[2] != '=' && s[3] != '='
    ensures Decode(s) == Some([a * 4 + b / 16, b % 16 * 16 + c / 4, c % 4 * 64 + d] + Decode(s[4..]).value)
  {
    assert s[2..][0] != '=' && s[3..][0] != '=';
  }

  lemma DecodeLetters(a: Sextet, b: Sextet, c: Sextet, d: Sextet, tail: string)
    requires Decode(tail).Some?
    ensures Decode([Letter(a), Letter(b), Letter(c), Letter(d)] + tail)
            == Some([a * 4 + b / 16, b % 16 * 16 + c / 4, c % 4 * 64 + d] + Decode(tail).value)
  {
    var s := [Letter(a), Letter(b), Letter(c), Letter(d)] + tail;
    assert Value(s[0]) == Some(a) by { LetterValue(a); }
    assert Value(s[1]) == Some(b) by { LetterValue(b); }
    assert Value(s[2]) == Some(c) && s[2] != '=' by { LetterValue(c); }
    assert Value(s[3]) == Some(d) && s[3] != '=' by { LetterValue(d); }
    assert s[4..] == tail;
    DecodeStep(s, a, b, c, d);
  }

  lemma DecodeGroup(x: Byte, y: Byte, z: Byte, tail: string)
    requires Decode(tail).Some?
    ensures Decode(Group(x, y, z) + tail) == Some([x, y, z] + Decode(tail).value)
  {
    hide Decode, Letter;
    Regroup(x, y, z);
    DecodeLetters(x / 4, x % 4 * 16 + y / 16, y % 16 * 4 + z / 64, z % 64, tail);
  }

  lemma DecodeOne(x: Byte)
    ensures Decode([Letter(x / 4), Letter(x % 4 * 16), '=', '=']) == Some([x])
  {
    LetterValue(x / 4);
    LetterValue(x % 4 * 16);
    assert [Letter(x / 4), Letter(x % 4 * 16), '=', '='][2..] == "==";
  }

  lemma DecodeTwo(x: Byte, y: Byte)
    ensures Decode([Letter(x / 4), Letter(x % 4 * 16 + y / 16), Letter(y % 16 * 4), '=']) == Some([x, y])
  {
    var s := [Letter(x / 4), Letter(x % 4 * 16 + y / 16), Letter(y % 16 * 4), '='];
    LetterValue(x / 4);
    LetterValue(x % 4 * 16 + y / 16);
    LetterValue(y % 16 * 4);
    Regroup(x, y, 0);
    assert s[2..][0] != '=' && s[3..] == "=";
  }

  lemma {:induction false} DecodeEncode(bs: seq<Byte>)
    ensures Decode(Encode(bs)) == Some(bs)
  {
    if |bs| >= 3 {
      DecodeEncode(bs[3..]);
      DecodeGroup(bs[0], bs[1], bs[2], Encode(bs[3..]));
      assert bs == [bs[0], bs[1], bs[2]] + bs[3..];
    } else if |bs| == 2 {
      DecodeTwo(bs[0], bs[1]);
      assert bs == [bs[0], bs[1]];
    } else if |bs| == 1 {
      DecodeOne(bs[0]);
      assert bs == [bs[0]];
    }
  }

  /** The body before the padding, and how much padding follows it. */
  function Body(bs: seq<Byte>): string {
    if bs == [] then ""
    else if |bs| == 1 then [Letter(bs[0] / 4), Letter(bs[0] % 4 * 16)]
    else if |bs| == 2 then [Letter(bs[0] / 4), Letter(bs[0] % 4 * 16 + bs[1] / 16), Letter(bs[1] % 16 * 4)]
    else
      Group(bs[0], bs[1], bs[2]) + Body(bs[3..])
  }

  lemma PadCountByFours(n: nat)
    ensures PadCount(n + 4) == PadCount(n)
  {
  }

  lemma GroupPlain(x: Byte, y: Byte, z: Byte)
    ensures Plain(Group(x, y, z))
  {
    LetterValue(x / 4);
    LetterValue(x % 4 * 16 + y / 16);
    LetterValue(y % 16 * 4 + z / 64);
    LetterValue(z % 64);
  }

  lemma PlainConcat(a: string, b: string)
    requires Plain(a) && Plain(b)
    ensures Plain(a + b)
  {
  }

  lemma {:induction false} EncodeIsBodyPadded(bs: seq<Byte>)
    ensures Encode(bs) == Body(bs) + Padding(PadCount(|Body(bs)|))
    ensures Plain(Body(bs))
  {
    if |bs| >= 3 {
      var group, rest := Group(bs[0], bs[1], bs[2]), Body(bs[3..]);
      EncodeIsBodyPadded(bs[3..]);
      GroupPlain(bs[0], bs[1], bs[2]);
      PlainConcat(group, rest);
      PadCountByFours(|rest|);
      assert group + (rest + Padding(PadCount(|rest|))) == (group + rest) + Padding(PadCount(|rest|));
    }
  }

  lemma {:induction false} StripPadding(body: string, n: nat)
    requires Plain(body)
    ensures Strip(body + Padding(n)) == body
  {
    var s := body + Padding(n);
    if n == 0 {
      assert s == body;
      if body != "" { assert Value(body[|body| - 1]).Some?; }
    } else {
      assert s[..|s| - 1] == body + Padding(n - 1);
      StripPadding(body, n - 1);
    }
  }

  lemma PlainExcludes(s: string, c: char)
    requires Plain(s) && Value(c).None?
    ensures c !in s
  {
  }

  lemma StripsToBody(bs: seq<Byte>)
    ensures B64Url(bs) == Body(bs)
  {
    EncodeIsBodyPadded(bs);
    StripPadding(Body(bs), PadCount(|Body(bs)|));
  }

  lemma RepadRestores(bs: seq<Byte>)
    ensures Repad(B64Url(bs)) == Encode(bs)
  {
    StripsToBody(bs);
    EncodeIsBodyPadded(bs);
  }

  /** Re-padding by -len mod 4 restores exactly what was stripped, and decoding gives the bytes back. */
  lemma RoundTrip(bs: seq<Byte>)
    ensures Repad(B64Url(bs)) == Encode(bs)
    ensures UnB64Url(B64Url(bs)) == Some(bs)
    ensures Plain(B64Url(bs)) && '.' !in B64Url(bs) && '=' !in B64Url(bs)
  {
    RepadRestores(bs);
    DecodeEncode(bs);
    AllPlain(bs);
  }

  lemma AllPlain(bs: seq<Byte>)
    ensures Plain(B64Url(bs)) && '.' !in B64Url(bs) && '=' !in B64Url(bs)
  {
    StripsToBody(bs);
    EncodeIsBodyPadded(bs);
    PlainExcludes(Body(bs), '.');
    PlainExcludes(Body(bs), '=');
  }

  lemma Injective(a: seq<Byte>, b: seq<Byte>)
    ensures B64Url(a) == B64Url(b) <==> a == b
  {
    RoundTrip(a);
    RoundTrip(b);
  }
}
