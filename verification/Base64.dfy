/**
 Base64 (section 4 of RFC 4648) and the non-strict decoder of Python's binascii, which skips
 characters outside the alphabet and stops at the padding.
 */
module Base64 {
  import opened Wrappers

  const PAD: byte := 61

  function Symbol(v: nat): byte
    requires v < 64
  {
    if v < 26 then 65 + v else if v < 52 then 71 + v else if v < 62 then v - 4 else if v == 62 then 43 else 47
  }

  function Index(b: byte): Option<nat> {
    if 65 <= b <= 90 then Some(b - 65)
    else if 97 <= b <= 122 then Some(b - 71)
    else if 48 <= b <= 57 then Some(b + 4)
    else if b == 43 then Some(62)
    else if b == 47 then Some(63)
    else None
  }

  function Encode(data: seq<byte>): seq<byte> {
    if |data| == 0 then []
    else if |data| == 1 then [Symbol(data[0] / 4), Symbol(data[0] % 4 * 16), PAD, PAD]
    else if |data| == 2 then
      [Symbol(data[0] / 4), Symbol(data[0] % 4 * 16 + data[1] / 16), Symbol(data[1] % 16 * 4), PAD]
    else Quad(data[0], data[1], data[2]) + Encode(data[3..])
  }

  function Quad(a: byte, b: byte, c: byte): (q: seq<byte>)
    ensures |q| == 4
  {
    [Symbol(a / 4), Symbol(a % 4 * 16 + b / 16), Symbol(b % 16 * 4 + c / 64), Symbol(c % 64)]
  }

  /** `quad` symbols of the current group are read, `rest` holds the bits left over from the last. */
  function DecodeFrom(text: seq<byte>, quad: nat, rest: nat, pads: nat): Option<seq<byte>>
    requires quad < 4
    requires rest < (if quad == 1 then 64 else if quad == 2 then 16 else if quad == 3 then 4 else 1)
  {
    if text == [] then
      if quad == 0 then Some([]) else None
    else if text[0] == PAD then
      if quad >= 2 && quad + pads + 1 >= 4 then Some([])
      else DecodeFrom(text[1..], quad, rest, if quad >= 2 then pads + 1 else pads)
    else
      match Index(text[0])
      case None => DecodeFrom(text[1..], quad, rest, pads)
      case Some(v) =>
        if quad == 0 then DecodeFrom(text[1..], 1, v, 0)
        else if quad == 1 then Emit(rest * 4 + v / 16, DecodeFrom(text[1..], 2, v % 16, 0))
        else if quad == 2 then Emit(rest * 16 + v / 4, DecodeFrom(text[1..], 3, v % 4, 0))
        else Emit(rest * 64 + v, DecodeFrom(text[1..], 0, 0, 0))
  }

  function Emit(b: byte, more: Option<seq<byte>>): Option<seq<byte>> {
    match more case None => None case Some(bytes) => Some([b] + bytes)
  }

  /** base64.b64decode(text, validate=False); None where it raises. */
  function Decode(text: seq<byte>): Option<seq<byte>> { DecodeFrom(text, 0, 0, 0) }

  lemma {:induction false} EncodedLength(data: seq<byte>)
    ensures |Encode(data)| == 4 * ((|data| + 2) / 3)
  {
    if |data| >= 3 { EncodedLength(data[3..]); }
  }

  lemma {:induction false} IndexOfSymbol(v: nat)
    requires v < 64
    ensures Index(Symbol(v)) == Some(v) && Symbol(v) != PAD
  {}

  lemma {:induction false} TakeSymbol(v: nat, more: seq<byte>, quad: nat, rest: nat, pads: nat)
    requires v < 64 && quad < 4
    requires rest < (if quad == 1 then 64 else if quad == 2 then 16 else if quad == 3 then 4 else 1)
    ensures DecodeFrom([Symbol(v)] + more, quad, rest, pads)
         == if quad == 0 then DecodeFrom(more, 1, v, 0)
            else if quad == 1 then Emit(rest * 4 + v / 16, DecodeFrom(more, 2, v % 16, 0))
            else if quad == 2 then Emit(rest * 16 + v / 4, DecodeFrom(more, 3, v % 4, 0))
            else Emit(rest * 64 + v, DecodeFrom(more, 0, 0, 0))
  {
    IndexOfSymbol(v);
    assert ([Symbol(v)] + more)[1..] == more;
  }

  /** Regrouping three bytes as four groups of six bits loses nothing. */
  lemma {:induction false} QuadBits(a: byte, b: byte, c: byte)
    ensures var v0, v1, v2, v3 := a / 4, a % 4 * 16 + b / 16, b % 16 * 4 + c / 64, c % 64;
            && v0 < 64 && v1 < 64 && v2 < 64 && v3 < 64
            && v0 * 4 + v1 / 16 == a && v1 % 16 * 16 + v2 / 4 == b && v2 % 4 * 64 + v3 == c
  {}

  lemma {:induction false} DecodeQuad(a: byte, b: byte, c: byte, more: seq<byte>)
    ensures DecodeFrom(Quad(a, b, c) + more, 0, 0, 0) == Emit(a, Emit(b, Emit(c, DecodeFrom(more, 0, 0, 0))))
  {
    var v0, v1, v2, v3 := a / 4, a % 4 * 16 + b / 16, b % 16 * 4 + c / 64, c % 64;
    QuadBits(a, b, c);
    var t3 := [Symbol(v3)] + more;
    var t2 := [Symbol(v2)] + t3;
    var t1 := [Symbol(v1)] + t2;
    assert Quad(a, b, c) + more == [Symbol(v0)] + t1;
    TakeSymbol(v0, t1, 0, 0, 0);
    TakeSymbol(v1, t2, 1, v0, 0);
    TakeSymbol(v2, t3, 2, v1 % 16, 0);
    TakeSymbol(v3, more, 3, v2 % 4, 0);
  }

  lemma {:induction false} DecodeOne(a: byte)
    ensures Decode(Encode([a])) == Some([a])
  {
    var v0, v1 := a / 4, a % 4 * 16;
    var text := [Symbol(v1), PAD, PAD];
    assert Encode([a]) == [Symbol(v0)] + text && text == [Symbol(v1)] + [PAD, PAD];
    TakeSymbol(v0, text, 0, 0, 0);
    TakeSymbol(v1, [PAD, PAD], 1, v0, 0);
    assert v0 * 4 + v1 / 16 == a;
    PadPair(v1 % 16);
    assert [a] + [] == [a];
  }

  lemma {:induction false} PadPair(rest: nat)
    requires rest < 16
    ensures DecodeFrom([PAD, PAD], 2, rest, 0) == Some([])
  {
    assert [PAD, PAD][1..] == [PAD];
  }

  lemma {:induction false} DecodeTwo(a: byte, b: byte)
    ensures Decode(Encode([a, b])) == Some([a, b])
  {
    var v0, v1, v2 := a / 4, a % 4 * 16 + b / 16, b % 16 * 4;
    var text := [Symbol(v1), Symbol(v2), PAD];
    assert Encode([a, b]) == [Symbol(v0)] + text && text == [Symbol(v1)] + [Symbol(v2), PAD];
    assert [Symbol(v2), PAD] == [Symbol(v2)] + [PAD];
    TakeSymbol(v0, text, 0, 0, 0);
    TakeSymbol(v1, [Symbol(v2), PAD], 1, v0, 0);
    TakeSymbol(v2, [PAD], 2, v1 % 16, 0);
    assert v0 * 4 + v1 / 16 == a && v1 % 16 * 16 + v2 / 4 == b;
    assert DecodeFrom([PAD], 3, v2 % 4, 0) == Some([]);
    assert [a] + ([b] + []) == [a, b];
  }

  /** Decoding undoes encoding, for all byte strings. */
  lemma {:induction false} DecodeEncode(data: seq<byte>)
    ensures Decode(Encode(data)) == Some(data)
  {
    if |data| == 0 {
    } else if |data| == 1 {
      assert data == [data[0]];
      DecodeOne(data[0]);
    } else if |data| == 2 {
      assert data == [data[0], data[1]];
      DecodeTwo(data[0], data[1]);
    } else {
      DecodeQuad(data[0], data[1], data[2], Encode(data[3..]));
      DecodeEncode(data[3..]);
      assert [data[0]] + ([data[1]] + ([data[2]] + data[3..])) == data;
    }
  }

  /** The first three characters of an encoding. */
  lemma {:induction false} FirstSymbols(data: seq<byte>)
    requires data != []
    ensures |Encode(data)| >= 4 && Encode(data)[0] == Symbol(data[0] / 4)
    ensures Encode(data)[1] == Symbol(data[0] % 4 * 16 + if |data| >= 2 then data[1] / 16 else 0)
    ensures |data| == 1 ==> Encode(data)[2] == PAD
    ensures |data| >= 2 ==> Encode(data)[2] == Symbol(data[1] % 16 * 4 + if |data| >= 3 then data[2] / 64 else 0)
  {
    if |data| >= 3 {
      var quad := Quad(data[0], data[1], data[2]);
      assert Encode(data) == quad + Encode(data[3..]);
      assert Encode(data)[0] == quad[0] && Encode(data)[1] == quad[1] && Encode(data)[2] == quad[2];
    }
  }

  lemma {:induction false} CutText(text: seq<byte>, v0: nat, v1: nat, quads: nat)
    requires v0 < 64 && v1 < 64 && 1 <= |text| == quads <= 2
    requires text[0] == Symbol(v0) && (quads == 2 ==> text[1] == Symbol(v1))
    ensures Decode(text) == None
  {
    assert text == [Symbol(v0)] + text[1..];
    TakeSymbol(v0, text[1..], 0, 0, 0);
    if quads == 2 {
      assert text[1..] == [Symbol(v1)] + [];
      TakeSymbol(v1, [], 1, v0, 0);
    }
  }

  lemma {:induction false} CutThree(text: seq<byte>, v0: nat, v1: nat, v2: nat)
    requires v0 < 64 && v1 < 64 && v2 < 64 && |text| == 3
    requires text[0] == Symbol(v0) && text[1] == Symbol(v1) && (text[2] == PAD || text[2] == Symbol(v2))
    ensures Decode(text) == None
  {
    assert text == [Symbol(v0)] + text[1..];
    TakeSymbol(v0, text[1..], 0, 0, 0);
    assert text[1..] == [Symbol(v1)] + text[2..];
    TakeSymbol(v1, text[2..], 1, v0, 0);
    if text[2] == PAD {
      assert text[2..] == [PAD] && [PAD][1..] == [];
    } else {
      assert text[2..] == [Symbol(v2)] + [];
      TakeSymbol(v2, [], 2, v1 % 16, 0);
    }
  }

  lemma {:induction false} CutGroup(data: seq<byte>, n: nat)
    requires data != [] && 1 <= n < 4
    ensures n <= |Encode(data)| && Decode(Encode(data)[..n]) == None
  {
    FirstSymbols(data);
    var v0 := data[0] / 4;
    var v1 := data[0] % 4 * 16 + if |data| >= 2 then data[1] / 16 else 0;
    if n < 3 {
      CutText(Encode(data)[..n], v0, v1, n);
    } else {
      var v2 := if |data| >= 2 then data[1] % 16 * 4 + (if |data| >= 3 then data[2] / 64 else 0) else 0;
      CutThree(Encode(data)[..n], v0, v1, v2);
    }
  }

  /**
   An encoding cut short decodes exactly when it is cut between two groups, and then to the bytes
   of the groups it kept.
   */
  lemma {:induction false} DecodeCut(data: seq<byte>, n: nat)
    requires n < |Encode(data)|
    ensures 3 * (n / 4) <= |data|
    ensures Decode(Encode(data)[..n]) == if n % 4 == 0 then Some(data[..3 * (n / 4)]) else None
  {
    EncodedLength(data);
    if n == 0 {
      assert Encode(data)[..0] == [];
    } else if n < 4 {
      CutGroup(data, n);
    } else {
      DecodeCut(data[3..], n - 4);
      CutAfterGroup(data, n);
      FirstThree(data, 3 * (n / 4));
    }
  }

  lemma {:induction false} CutAfterGroup(data: seq<byte>, n: nat)
    requires 3 <= |data| && 4 <= n < |Encode(data)|
    ensures Decode(Encode(data)[..n])
         == Emit(data[0], Emit(data[1], Emit(data[2], Decode(Encode(data[3..])[..n - 4]))))
  {
    var more := Encode(data[3..]);
    assert Encode(data)[..n] == Quad(data[0], data[1], data[2]) + more[..n - 4];
    DecodeQuad(data[0], data[1], data[2], more[..n - 4]);
  }

  lemma {:induction false} FirstThree(data: seq<byte>, k: nat)
    requires 3 <= k <= |data|
    ensures [data[0]] + ([data[1]] + ([data[2]] + data[3..][..k - 3])) == data[..k]
  {}

  // ----- white space between the symbols

  predicate IsSpaceByte(b: byte) { b == 32 || 9 <= b <= 13 }

  /** b"".join(text.split()) */
  function Squeeze(text: seq<byte>): seq<byte> {
    if text == [] then [] else (if IsSpaceByte(text[0]) then [] else [text[0]]) + Squeeze(text[1..])
  }

  /** White space never changes what is decoded. */
  lemma {:induction false} SqueezeDecodes(text: seq<byte>, quad: nat, rest: nat, pads: nat)
    requires quad < 4
    requires rest < (if quad == 1 then 64 else if quad == 2 then 16 else if quad == 3 then 4 else 1)
    ensures DecodeFrom(Squeeze(text), quad, rest, pads) == DecodeFrom(text, quad, rest, pads)
  {
    if text != [] {
      var more := Squeeze(text[1..]);
      if IsSpaceByte(text[0]) {
        assert Squeeze(text) == more;
        SqueezeDecodes(text[1..], quad, rest, pads);
      } else {
        assert Squeeze(text)[0] == text[0] && Squeeze(text)[1..] == more;
        if text[0] == PAD {
          SqueezeDecodes(text[1..], quad, rest, if quad >= 2 then pads + 1 else pads);
        } else {
          match Index(text[0]) {
            case None => SqueezeDecodes(text[1..], quad, rest, pads);
            case Some(v) =>
              if quad == 0 { SqueezeDecodes(text[1..], 1, v, 0); }
              else if quad == 1 { SqueezeDecodes(text[1..], 2, v % 16, 0); }
              else if quad == 2 { SqueezeDecodes(text[1..], 3, v % 4, 0); }
              else { SqueezeDecodes(text[1..], 0, 0, 0); }
          }
        }
      }
    }
  }

  // ----- the alphabet and the test vectors of RFC 4648 (sections 4 and 10)

  lemma {:induction false} AlphabetIs(v: nat)
    requires v < 64
    ensures Symbol(v) == if v < 26 then 'A' as int + v else if v < 52 then 'a' as int + (v - 26)
                         else if v < 62 then '0' as int + (v - 52) else if v == 62 then '+' as int else '/' as int
    ensures PAD == '=' as int
    ensures forall c: char | c as int < 256 :: IsSpaceByte(c as int) <==> c in " \t\n\U{0B}\U{0C}\r"
  {}

  /** Three bytes are the digits, in base 64, of the number that they are in base 256; one or two are filled up. */
  lemma {:induction false} GroupsAre(a: byte, b: byte, c: byte)
    ensures var v0, v1, v2, v3 := a / 4, a % 4 * 16 + b / 16, b % 16 * 4 + c / 64, c % 64;
            && 262144 * v0 + 4096 * v1 + 64 * v2 + v3 == 65536 * a + 256 * b + c
            && v0 < 64 && v1 < 64 && v2 < 64 && v3 < 64
            && Encode([a, b, c]) == [Symbol(v0), Symbol(v1), Symbol(v2), Symbol(v3)]
    ensures Encode([a, b]) == Encode([a, b, 0])[..3] + ['=' as int]
    ensures Encode([a]) == Encode([a, 0, 0])[..2] + ['=' as int, '=' as int]
  {
    assert Encode([a, b, c]) == Quad(a, b, c) + [];
    assert Encode([a, b, 0]) == Quad(a, b, 0) + [] && Encode([a, 0, 0]) == Quad(a, 0, 0) + [];
  }
}
