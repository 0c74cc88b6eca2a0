/** The base 64 encoding of section 4 of RFC 4648: every three bytes become
    four characters of the 64-character alphabet of Table 1, and a final group
    of one or two bytes is completed with one or two '=' pad characters.

    Python's `base64.b64encode` produces exactly this text. The decoder here
    is the strict one that section 3.5 of RFC 4648 permits: it accepts only
    canonical encodings (pad characters only at the end, and pad bits zero),
    so that it is the exact inverse of `Encode`. */
module Base64 {
  import opened Outcomes

  type byte = b: int | 0 <= b < 256
  type Bytes = seq<byte>

  /** A 6-bit group, the value one alphabet character stands for. */
  type Sextet = v: int | 0 <= v < 64

  const Pad: char := '='

  /** Table 1 of RFC 4648: 0-25 are 'A'-'Z', 26-51 'a'-'z', 52-61 '0'-'9',
      62 is '+' and 63 is '/'. */
  function DigitChar(v: Sextet): char
  {
    if v < 26 then (v + 'A' as int) as char
    else if v < 52 then (v - 26 + 'a' as int) as char
    else if v < 62 then (v - 52 + '0' as int) as char
    else if v == 62 then '+'
    else '/'
  }

  /** The value a character stands for in Table 1, or None for a character
      outside the alphabet (the pad character included). */
  function DigitValue(c: char): Option<Sextet>
  {
    if 'A' <= c <= 'Z' then Some(c as int - 'A' as int)
    else if 'a' <= c <= 'z' then Some(c as int - 'a' as int + 26)
    else if '0' <= c <= '9' then Some(c as int - '0' as int + 52)
    else if c == '+' then Some(62)
    else if c == '/' then Some(63)
    else None
  }

  predicate IsDigitChar(c: char)
  {
    DigitValue(c).Some?
  }

  /** Table 1 read both ways: every value has one character and every
      alphabet character one value. */
  lemma DigitRoundTrip(v: Sextet)
    ensures DigitValue(DigitChar(v)) == Some(v)
    ensures DigitChar(v) != Pad
  {
  }

  lemma DigitCanonical(c: char)
    requires IsDigitChar(c)
    ensures DigitChar(DigitValue(c).value) == c
  {
  }

  /** Three bytes, 24 bits, as four 6-bit digits. */
  function EncodeGroup(a: byte, b: byte, c: byte): (r: string)
    ensures |r| == 4
  {
    [DigitChar(a / 4), DigitChar((a % 4) * 16 + b / 16),
     DigitChar((b % 16) * 4 + c / 64), DigitChar(c % 64)]
  }

  /** A final single byte: two digits, the last four bits zero, then "==". */
  function EncodeTail1(a: byte): (r: string)
    ensures |r| == 4
  {
    [DigitChar(a / 4), DigitChar((a % 4) * 16), Pad, Pad]
  }

  /** Two final bytes: three digits, the last two bits zero, then "=". */
  function EncodeTail2(a: byte, b: byte): (r: string)
    ensures |r| == 4
  {
    [DigitChar(a / 4), DigitChar((a % 4) * 16 + b / 16), DigitChar((b % 16) * 4), Pad]
  }

  /** The number of pad characters after `n` bytes. */
  function PadCount(n: nat): nat
  {
    (3 - n % 3) % 3
  }

  /** `base64.b64encode(s)`: four characters for every started group of
      three bytes. */
  function Encode(s: Bytes): (r: string)
    ensures |r| == 4 * ((|s| + 2) / 3)
    decreases |s|
  {
    if |s| == 0 then []
    else if |s| == 1 then EncodeTail1(s[0])
    else if |s| == 2 then EncodeTail2(s[0], s[1])
    else EncodeGroup(s[0], s[1], s[2]) + Encode(s[3..])
  }

  /** The characters of a text from `first` on are pad characters, and the
      ones before it alphabet characters. */
  predicate PaddedFrom(r: string, first: int)
  {
    forall i :: 0 <= i < |r| ==> (r[i] == Pad <==> first <= i) && (IsDigitChar(r[i]) || r[i] == Pad)
  }

  lemma GroupPadding(a: byte, b: byte, c: byte)
    ensures PaddedFrom(EncodeGroup(a, b, c), 4)
  {
    DigitRoundTrip(a / 4); DigitRoundTrip((a % 4) * 16 + b / 16);
    DigitRoundTrip((b % 16) * 4 + c / 64); DigitRoundTrip(c % 64);
  }

  lemma TailPadding(a: byte, b: byte)
    ensures PaddedFrom(EncodeTail1(a), 2)
    ensures PaddedFrom(EncodeTail2(a, b), 3)
  {
    DigitRoundTrip(a / 4); DigitRoundTrip((a % 4) * 16);
    DigitRoundTrip((a % 4) * 16 + b / 16); DigitRoundTrip((b % 16) * 4);
  }

  /** An encoding is alphabet characters followed by exactly the pad
      characters that complete its last group: none, one or two. */
  lemma {:induction false} EncodePadding(s: Bytes)
    ensures PaddedFrom(Encode(s), |Encode(s)| - PadCount(|s|))
    decreases |s|
  {
    hide EncodeGroup, EncodeTail1, EncodeTail2;
    if |s| == 1 {
      TailPadding(s[0], 0);
    } else if |s| == 2 {
      TailPadding(s[0], s[1]);
    } else if |s| >= 3 {
      var g := EncodeGroup(s[0], s[1], s[2]);
      var rest := Encode(s[3..]);
      GroupPadding(s[0], s[1], s[2]);
      EncodePadding(s[3..]);
      assert PadCount(|s[3..]|) == PadCount(|s|);
      PaddedJoin(g, rest, |rest| - PadCount(|s|));
      assert Encode(s) == g + rest;
    }
  }

  /** Four alphabet characters before a padded text. */
  lemma PaddedJoin(g: string, rest: string, first: int)
    requires |g| == 4 && PaddedFrom(g, 4) && PaddedFrom(rest, first) && 0 <= first
    ensures PaddedFrom(g + rest, 4 + first)
  {
    var r := g + rest;
    forall i | 0 <= i < |r|
      ensures (r[i] == Pad <==> 4 + first <= i) && (IsDigitChar(r[i]) || r[i] == Pad)
    {
      if i >= 4 {
        assert r[i] == rest[i - 4];
      }
    }
  }

  /** The three bytes four digit values stand for. */
  function Combine(w: Sextet, x: Sextet, y: Sextet, z: Sextet): Bytes
  {
    [w * 4 + x / 16, (x % 16) * 16 + y / 4, (y % 4) * 64 + z]
  }

  /** Four alphabet characters, or None if one of them is not one. */
  function DecodeGroup(q: string): Option<Bytes>
    requires |q| == 4
  {
    match (DigitValue(q[0]), DigitValue(q[1]), DigitValue(q[2]), DigitValue(q[3]))
    case (Some(w), Some(x), Some(y), Some(z)) => Some(Combine(w, x, y, z))
    case _ => None
  }

  /** The last group of an encoding, which may end in one or two pad
      characters; pad bits that are not zero make the text non-canonical. */
  function DecodeFinal(q: string): Option<Bytes>
    requires |q| == 4
  {
    if q[2] == Pad && q[3] == Pad then
      match (DigitValue(q[0]), DigitValue(q[1]))
      case (Some(w), Some(x)) => if x % 16 == 0 then Some(Combine(w, x, 0, 0)[..1]) else None
      case _ => None
    else if q[3] == Pad then
      match (DigitValue(q[0]), DigitValue(q[1]), DigitValue(q[2]))
      case (Some(w), Some(x), Some(y)) =>
        if y % 4 == 0 then Some(Combine(w, x, y, 0)[..2]) else None
      case _ => None
    else
      DecodeGroup(q)
  }

  /** Strict decoding: None for any text that is not the encoding of some
      byte string. */
  function Decode(t: string): (r: Option<Bytes>)
    ensures r.Some? ==> |t| % 4 == 0
    decreases |t|
  {
    if |t| == 0 then Some([])
    else if |t| < 4 then None
    else if |t| == 4 then DecodeFinal(t)
    else
      match DecodeGroup(t[..4])
      case None => None
      case Some(g) =>
        match Decode(t[4..])
        case None => None
        case Some(rest) => Some(g + rest)
  }

  lemma GroupRoundTrip(a: byte, b: byte, c: byte)
    ensures DecodeGroup(EncodeGroup(a, b, c)) == Some([a, b, c])
    ensures DecodeFinal(EncodeGroup(a, b, c)) == Some([a, b, c])
  {
    DigitRoundTrip(a / 4); DigitRoundTrip((a % 4) * 16 + b / 16);
    DigitRoundTrip((b % 16) * 4 + c / 64); DigitRoundTrip(c % 64);
    SplitCombines(a, b, c);
  }

  /** Joining the four digit values of three bytes gives back the bytes. */
  lemma SplitCombines(a: byte, b: byte, c: byte)
    ensures Combine(a / 4, (a % 4) * 16 + b / 16, (b % 16) * 4 + c / 64, c % 64) == [a, b, c]
  {
    DivMod(a, 4, a / 4, a % 4);
    DivMod(b, 16, b / 16, b % 16);
    DivMod(c, 64, c / 64, c % 64);
    DivMod((a % 4) * 16 + b / 16, 16, a % 4, b / 16);
    DivMod((b % 16) * 4 + c / 64, 4, b % 16, c / 64);
  }

  lemma Tail1RoundTrip(a: byte)
    ensures DecodeFinal(EncodeTail1(a)) == Some([a])
  {
    var w, x := a / 4, (a % 4) * 16;
    DigitRoundTrip(w); DigitRoundTrip(x);
    SplitCombines(a, 0, 0);
    DivMod(x, 16, a % 4, 0);
    assert Combine(w, x, 0, 0)[..1] == [a];
  }

  lemma Tail2RoundTrip(a: byte, b: byte)
    ensures DecodeFinal(EncodeTail2(a, b)) == Some([a, b])
  {
    var w, x, y := a / 4, (a % 4) * 16 + b / 16, (b % 16) * 4;
    DigitRoundTrip(w); DigitRoundTrip(x); DigitRoundTrip(y);
    SplitCombines(a, b, 0);
    DivMod(y, 4, b % 16, 0);
    assert Combine(w, x, y, 0)[..2] == [a, b];
  }

  /** Decoding an encoding gives back the original bytes. */
  lemma {:induction false} DecodeEncode(s: Bytes)
    ensures Decode(Encode(s)) == Some(s)
    decreases |s|
  {
    if |s| == 1 {
      Tail1RoundTrip(s[0]);
      assert [s[0]] == s;
    } else if |s| == 2 {
      Tail2RoundTrip(s[0], s[1]);
      assert [s[0], s[1]] == s;
    } else if |s| >= 3 {
      var g := EncodeGroup(s[0], s[1], s[2]);
      var t := Encode(s);
      GroupRoundTrip(s[0], s[1], s[2]);
      assert s == [s[0], s[1], s[2]] + s[3..];
      if |s| == 3 {
        assert s[3..] == [];
        assert t == g;
        assert Decode(t) == DecodeFinal(g) == Some([s[0], s[1], s[2]]);
        assert [s[0], s[1], s[2]] == s;
      } else {
        DecodeEncode(s[3..]);
        assert t[..4] == g;
        assert t[4..] == Encode(s[3..]);
      }
    }
  }

  /** Splitting the three bytes of four digit values again gives back the
      four values. */
  lemma CombineSplits(w: Sextet, x: Sextet, y: Sextet, z: Sextet)
    ensures var bs := Combine(w, x, y, z);
            && bs[0] / 4 == w && (bs[0] % 4) * 16 + bs[1] / 16 == x
            && (bs[1] % 16) * 4 + bs[2] / 64 == y && bs[2] % 64 == z
  {
    var bs := Combine(w, x, y, z);
    DivMod(bs[0], 4, w, x / 16);
    DivMod(bs[1], 16, x % 16, y / 4);
    DivMod(bs[2], 64, y % 4, z);
    DivMod(x, 16, x / 16, x % 16);
    DivMod(y, 4, y / 4, y % 4);
  }

  lemma DivMod(a: int, d: int, q: int, r: int)
    requires d in {4, 16, 64}
    requires a == q * d + r && 0 <= r < d
    ensures a / d == q && a % d == r
  {
  }

  lemma GroupCanonical(q: string)
    requires |q| == 4 && DecodeGroup(q).Some?
    ensures var bs := DecodeGroup(q).value;
            |bs| == 3 && EncodeGroup(bs[0], bs[1], bs[2]) == q
  {
    var w, x, y, z := DigitValue(q[0]).value, DigitValue(q[1]).value,
                      DigitValue(q[2]).value, DigitValue(q[3]).value;
    DigitCanonical(q[0]); DigitCanonical(q[1]); DigitCanonical(q[2]); DigitCanonical(q[3]);
    assert DecodeGroup(q).value == Combine(w, x, y, z);
    CombineSplits(w, x, y, z);
  }

  lemma FinalCanonical(q: string)
    requires |q| == 4 && DecodeFinal(q).Some?
    ensures Encode(DecodeFinal(q).value) == q
  {
    var bs := DecodeFinal(q).value;
    if q[2] == Pad && q[3] == Pad {
      var w, x := DigitValue(q[0]).value, DigitValue(q[1]).value;
      DigitCanonical(q[0]); DigitCanonical(q[1]);
      CombineSplits(w, x, 0, 0);
      assert Encode(bs) == EncodeTail1(bs[0]);
    } else if q[3] == Pad {
      var w, x, y := DigitValue(q[0]).value, DigitValue(q[1]).value, DigitValue(q[2]).value;
      DigitCanonical(q[0]); DigitCanonical(q[1]); DigitCanonical(q[2]);
      CombineSplits(w, x, y, 0);
      assert Encode(bs) == EncodeTail2(bs[0], bs[1]);
    } else {
      GroupCanonical(q);
      assert Encode(bs) == EncodeGroup(bs[0], bs[1], bs[2]) + Encode(bs[3..]);
    }
  }

  /** Whatever the decoder accepts is the encoding of what it returns: no
      second spelling of the same bytes gets through. */
  lemma {:induction false} EncodeDecode(t: string)
    requires Decode(t).Some?
    ensures Encode(Decode(t).value) == t
    decreases |t|
  {
    if |t| == 4 {
      FinalCanonical(t);
    } else if |t| > 4 {
      var g := DecodeGroup(t[..4]).value;
      var rest := Decode(t[4..]).value;
      GroupCanonical(t[..4]);
      EncodeDecode(t[4..]);
      var s := g + rest;
      assert s[3..] == rest;
      assert Encode(s) == EncodeGroup(s[0], s[1], s[2]) + Encode(s[3..]);
      assert t == t[..4] + t[4..];
    }
  }

  /** `t` decodes to `s` exactly when `t` is the encoding of `s`. */
  lemma DecodeIffEncode(t: string, s: Bytes)
    ensures Decode(t) == Some(s) <==> Encode(s) == t
  {
    if Decode(t) == Some(s) {
      EncodeDecode(t);
    }
    if Encode(s) == t {
      DecodeEncode(s);
    }
  }
}
