/** UTF-8 (section 3 of RFC 3629): encoding, and decoding with U+FFFD for what is not well formed. */
module Utf8 {

  type Byte = b: int | 0 <= b < 256

  const REPLACEMENT: char := '\U{FFFD}'

  function EncodeChar(c: char): (bytes: seq<Byte>)
    ensures 1 <= |bytes| <= 4
  {
    var v := c as int;
    if v < 0x80 then [v]
    else if v < 0x800 then [0xC0 + v / 64, 0x80 + v % 64]
    else if v < 0x10000 then [0xE0 + v / 4096, 0x80 + v / 64 % 64, 0x80 + v % 64]
    else [0xF0 + v / 262144, 0x80 + v / 4096 % 64, 0x80 + v / 64 % 64, 0x80 + v % 64]
  }

  function Encode(s: string): seq<Byte> {
    if s == "" then [] else EncodeChar(s[0]) + Encode(s[1..])
  }

  // ── Decoding ───────────────────────────────────────────────────────────────

  /** How many continuation bytes a lead byte asks for; 0 for ASCII and for bytes that cannot lead. */
  function Following(lead: Byte): nat {
    if 0xC2 <= lead <= 0xDF then 1 else if 0xE0 <= lead <= 0xEF then 2 else if 0xF0 <= lead <= 0xF4 then 3 else 0
  }

  /** Overlong forms, surrogates and values past U+10FFFF are excluded by the second byte. */
  predicate Continues(bytes: seq<Byte>, position: nat)
    requires 1 <= position && bytes != []
  {
    var lead := bytes[0];
    var low := if position > 1 then 0x80 else if lead == 0xE0 then 0xA0 else if lead == 0xF0 then 0x90 else 0x80;
    var high := if position > 1 then 0xBF else if lead == 0xED then 0x9F else if lead == 0xF4 then 0x8F else 0xBF;
    position <= Following(lead) && position < |bytes| && low <= bytes[position] <= high
  }

  /** How many leading bytes belong together: a whole character, or as much of one as there is. */
  function Matched(bytes: seq<Byte>): (n: nat)
    requires bytes != []
    ensures 1 <= n <= |bytes| && n <= 1 + Following(bytes[0])
  {
    if !Continues(bytes, 1) then 1 else if !Continues(bytes, 2) then 2 else if !Continues(bytes, 3) then 3 else 4
  }

  function CharAt(bytes: seq<Byte>): char
    requires bytes != [] && Following(bytes[0]) > 0 && Matched(bytes) == 1 + Following(bytes[0])
  {
    var b0: int, b1: int := bytes[0], bytes[1];
    match Following(bytes[0])
    case 1 => ((b0 - 0xC0) * 64 + (b1 - 0x80)) as char
    case 2 => var b2: int := bytes[2]; ((b0 - 0xE0) * 4096 + (b1 - 0x80) * 64 + (b2 - 0x80)) as char
    case _ => var b2: int, b3: int := bytes[2], bytes[3];
              ((b0 - 0xF0) * 262144 + (b1 - 0x80) * 4096 + (b2 - 0x80) * 64 + (b3 - 0x80)) as char
  }

  function Decode(bytes: seq<Byte>): string {
    if bytes == [] then ""
    else if bytes[0] < 0x80 then [bytes[0] as char] + Decode(bytes[1..])
    else if Following(bytes[0]) > 0 && Matched(bytes) == 1 + Following(bytes[0])
    then [CharAt(bytes)] + Decode(bytes[Matched(bytes)..])
    else [REPLACEMENT] + Decode(bytes[Matched(bytes)..])
  }

  // ── Round trips ────────────────────────────────────────────────────────────

  lemma {:induction false} TwoDigits(v: nat)
    ensures v == v / 64 * 64 + v % 64
    ensures v < 0x800 ==> v / 64 < 32
  {
  }

  lemma {:induction false} ThreeDigits(v: nat)
    requires v < 0x10000
    ensures v == v / 4096 * 4096 + v / 64 % 64 * 64 + v % 64 && v / 4096 < 16 && v / 64 / 64 == v / 4096
  {
    TwoDigits(v);
    TwoDigits(v / 64);
  }

  lemma {:induction false} FourDigits(v: nat)
    requires v < 0x110000
    ensures v == v / 262144 * 262144 + v / 4096 % 64 * 4096 + v / 64 % 64 * 64 + v % 64 && v / 262144 <= 4
  {
    TwoDigits(v);
    TwoDigits(v / 64);
    TwoDigits(v / 4096);
    assert v / 64 / 64 == v / 4096 && v / 4096 / 64 == v / 262144;
  }

  /** An encoded character is matched as a whole, and any proper part of it as far as it goes. */
  lemma {:induction false} EncodedIsMatched(c: char, rest: seq<Byte>)
    ensures var bytes := EncodeChar(c);
            && (bytes[0] < 0x80 <==> |bytes| == 1)
            && Following(bytes[0]) == |bytes| - 1 && Matched(bytes + rest) == |bytes|
  {
    var v, bytes := c as int, EncodeChar(c);
    if 0x800 <= v < 0x10000 { ThreeDigits(v); } else if v >= 0x10000 { FourDigits(v); }
  }

  lemma {:induction false} CutIsMatched(c: char, k: nat)
    requires 0 < k < |EncodeChar(c)|
    ensures Matched(EncodeChar(c)[..k]) == k
  {
    EncodedIsMatched(c, []);
    var bytes := EncodeChar(c);
    assert bytes + [] == bytes;
    hide EncodeChar;
  }

  lemma {:induction false} CharOfEncoded(c: char, rest: seq<Byte>)
    requires |EncodeChar(c)| > 1
    ensures var bytes := EncodeChar(c) + rest;
            Following(bytes[0]) > 0 && Matched(bytes) == 1 + Following(bytes[0]) && CharAt(bytes) == c
  {
    EncodedIsMatched(c, rest);
    var v := c as int;
    if v < 0x800 { TwoDigits(v); } else if v < 0x10000 { ThreeDigits(v); } else { FourDigits(v); }
  }

  lemma {:induction false} DecodeChar(c: char, rest: seq<Byte>)
    ensures Decode(EncodeChar(c) + rest) == [c] + Decode(rest)
  {
    var bytes := EncodeChar(c) + rest;
    EncodedIsMatched(c, rest);
    assert bytes[|EncodeChar(c)|..] == rest;
    if |EncodeChar(c)| > 1 { CharOfEncoded(c, rest); }
  }

  /** A character cut short decodes to one replacement character. */
  lemma {:induction false} DecodeCut(c: char, k: nat)
    requires 0 < k < |EncodeChar(c)|
    ensures Decode(EncodeChar(c)[..k]) == [REPLACEMENT]
  {
    CutIsMatched(c, k);
    EncodedIsMatched(c, []);
    hide EncodeChar;
    var bytes := EncodeChar(c)[..k];
    assert bytes[k..] == [];
    assert Decode(bytes) == [REPLACEMENT] + Decode(bytes[k..]);
  }

  lemma {:induction false} EncodeOfConcat(a: string, b: string)
    ensures Encode(a + b) == Encode(a) + Encode(b)
  {
    hide EncodeChar;
    if a == "" {
      assert a + b == b;
    } else {
      EncodeOfConcat(a[1..], b);
      assert (a + b)[1..] == a[1..] + b;
    }
  }

  /** Text before a decoding point does not change what comes after it. */
  lemma {:induction false} DecodeAfter(a: string, bytes: seq<Byte>)
    ensures Decode(Encode(a) + bytes) == a + Decode(bytes)
  {
    hide EncodeChar, Decode;
    if a == "" {
      assert Encode(a) + bytes == bytes;
    } else {
      DecodeAfter(a[1..], bytes);
      DecodeChar(a[0], Encode(a[1..]) + bytes);
      assert Encode(a) + bytes == EncodeChar(a[0]) + (Encode(a[1..]) + bytes);
      assert a == [a[0]] + a[1..];
    }
  }

  lemma {:induction false} DecodeOfEncode(s: string)
    ensures Decode(Encode(s)) == s
  {
    DecodeAfter(s, []);
    assert Encode(s) + [] == Encode(s);
  }

  lemma {:induction false} DigitsBack(high: int, low: int)
    requires 0 <= low < 64 && 0 <= high
    ensures (high * 64 + low) / 64 == high && (high * 64 + low) % 64 == low
  {
  }

  lemma {:induction false} EncodedOfPair(b0: Byte, b1: Byte)
    requires 0xC2 <= b0 <= 0xDF && 0x80 <= b1 <= 0xBF
    ensures EncodeChar(((b0 - 0xC0) * 64 + (b1 - 0x80)) as char) == [b0, b1]
  {
    DigitsBack(b0 - 0xC0, b1 - 0x80);
  }

  lemma {:induction false} EncodedOfTriple(b0: Byte, b1: Byte, b2: Byte)
    requires 0xE0 <= b0 <= 0xEF && 0x80 <= b1 <= 0xBF && 0x80 <= b2 <= 0xBF
    requires (b0 == 0xE0 ==> b1 >= 0xA0) && (b0 == 0xED ==> b1 <= 0x9F)
    ensures EncodeChar(((b0 - 0xE0) * 4096 + (b1 - 0x80) * 64 + (b2 - 0x80)) as char) == [b0, b1, b2]
  {
    DigitsBack(b0 - 0xE0, b1 - 0x80);
    DigitsBack((b0 - 0xE0) * 64 + (b1 - 0x80), b2 - 0x80);
  }

  lemma {:induction false} EncodedOfQuad(b0: Byte, b1: Byte, b2: Byte, b3: Byte)
    requires 0xF0 <= b0 <= 0xF4 && 0x80 <= b1 <= 0xBF && 0x80 <= b2 <= 0xBF && 0x80 <= b3 <= 0xBF
    requires (b0 == 0xF0 ==> b1 >= 0x90) && (b0 == 0xF4 ==> b1 <= 0x8F)
    ensures EncodeChar(((b0 - 0xF0) * 262144 + (b1 - 0x80) * 4096 + (b2 - 0x80) * 64 + (b3 - 0x80)) as char)
         == [b0, b1, b2, b3]
  {
    DigitsBack(b0 - 0xF0, b1 - 0x80);
    DigitsBack((b0 - 0xF0) * 64 + (b1 - 0x80), b2 - 0x80);
    DigitsBack(((b0 - 0xF0) * 64 + (b1 - 0x80)) * 64 + (b2 - 0x80), b3 - 0x80);
  }

  lemma {:induction false} EncodedOfChar(bytes: seq<Byte>)
    requires bytes != [] && Following(bytes[0]) > 0 && Matched(bytes) == 1 + Following(bytes[0])
    ensures EncodeChar(CharAt(bytes)) == bytes[..Matched(bytes)]
  {
    hide EncodeChar;
    match Following(bytes[0])
    case 1 => EncodedOfPair(bytes[0], bytes[1]);
    case 2 => EncodedOfTriple(bytes[0], bytes[1], bytes[2]);
    case _ => EncodedOfQuad(bytes[0], bytes[1], bytes[2], bytes[3]);
  }

  lemma {:induction false} FirstDecoded(bytes: seq<Byte>)
    requires bytes != [] && Decode(bytes)[0] != REPLACEMENT
    ensures Decode(bytes)[1..] == Decode(bytes[Matched(bytes)..])
    ensures EncodeChar(Decode(bytes)[0]) == bytes[..Matched(bytes)]
  {
    assert bytes[0] < 0x80 ==> Matched(bytes) == 1 && EncodeChar(bytes[0] as char) == [bytes[0]] == bytes[..1];
    hide EncodeChar, CharAt, Following, Matched, Continues;
    if Following(bytes[0]) > 0 && Matched(bytes) == 1 + Following(bytes[0]) {
      EncodedOfChar(bytes);
    }
  }

  lemma {:induction false} EncodedOfDecoded(bytes: seq<Byte>)
    requires REPLACEMENT !in Decode(bytes)
    ensures Encode(Decode(bytes)) == bytes
    decreases |bytes|
  {
    if bytes != [] {
      assert Decode(bytes) != "";
      hide EncodeChar, Decode, Matched;
      FirstDecoded(bytes);
      var n := Matched(bytes);
      EncodedOfDecoded(bytes[n..]);
      assert bytes == bytes[..n] + bytes[n..];
    }
  }

  /** Decoding shows no U+FFFD exactly when the bytes encode a text that has none. */
  lemma {:induction false} DecodesCleanlyExactlyWhen(bytes: seq<Byte>)
    ensures REPLACEMENT !in Decode(bytes) <==> exists s: string :: REPLACEMENT !in s && bytes == Encode(s)
  {
    if REPLACEMENT !in Decode(bytes) {
      EncodedOfDecoded(bytes);
    }
    forall s: string | bytes == Encode(s) ensures Decode(bytes) == s {
      DecodeOfEncode(s);
    }
  }

  lemma {:induction false} EncodeOfCons(c: char, s: string)
    ensures Encode([c] + s) == EncodeChar(c) + Encode(s) && |Encode([c] + s)| == |EncodeChar(c)| + |Encode(s)|
  {
    assert ([c] + s)[1..] == s;
  }

  /** `text` is what `n` bytes of `s` show: the characters that fit whole, then one U+FFFD if a
      character was cut. */
  ghost predicate ShownIn(s: string, n: nat, k: nat, text: string) {
    k <= |s| && |Encode(s[..k])| <= n &&
    if |Encode(s[..k])| == n then text == s[..k]
    else k < |s| && n < |Encode(s[..k + 1])| && text == s[..k] + [REPLACEMENT]
  }

  lemma {:induction false} ShownInCons(c: char, t: string, n: nat, k: nat, text: string)
    requires ShownIn(t, n, k, text)
    ensures ShownIn([c] + t, |EncodeChar(c)| + n, k + 1, [c] + text)
  {
    hide EncodeChar, Encode;
    var s := [c] + t;
    assert s[..k + 1] == [c] + t[..k];
    EncodeOfCons(c, t[..k]);
    if k < |t| {
      assert s[..k + 2] == [c] + t[..k + 1];
      EncodeOfCons(c, t[..k + 1]);
    }
    assert [c] + (t[..k] + [REPLACEMENT]) == ([c] + t[..k]) + [REPLACEMENT];
  }

  /** Cutting encoded text after `n` bytes and decoding the rest shows just that, and encoded again
      it takes at most two bytes more than the cut allowed. */
  lemma {:induction false} CutText(s: string, n: nat)
    requires n <= |Encode(s)|
    ensures exists k :: ShownIn(s, n, k, Decode(Encode(s)[..n]))
    ensures |Encode(Decode(Encode(s)[..n]))| <= n + 2
  {
    hide EncodeChar, Decode, ShownIn;
    if n == 0 {
      NothingShown(s);
    } else {
      var c, t := s[0], s[1..];
      var w := |EncodeChar(c)|;
      assert s == [c] + t;
      EncodeOfCons(c, t);
      if n < w {
        FirstCut(c, t, n);
        EncodeOfReplacement();
      } else {
        CutText(t, n - w);
        var out := Decode(Encode(t)[..n - w]);
        var k :| ShownIn(t, n - w, k, out);
        ShownInCons(c, t, n - w, k, out);
        DecodeChar(c, Encode(t)[..n - w]);
        assert Encode(s)[..n] == EncodeChar(c) + Encode(t)[..n - w];
        EncodeOfCons(c, out);
      }
    }
  }

  lemma {:induction false} NothingShown(s: string)
    ensures ShownIn(s, 0, 0, "") && Decode([]) == "" && Encode("") == []
  {
    assert s[..0] == "";
  }

  lemma {:induction false} FirstCut(c: char, t: string, n: nat)
    requires 0 < n < |EncodeChar(c)|
    ensures |Encode([c] + t)| >= n && Decode(Encode([c] + t)[..n]) == [REPLACEMENT]
    ensures ShownIn([c] + t, n, 0, [REPLACEMENT])
  {
    hide EncodeChar, Decode;
    DecodeCut(c, n);
    EncodeOfCons(c, t);
    EncodeOfCons(c, "");
    assert (EncodeChar(c) + Encode(t))[..n] == EncodeChar(c)[..n];
    assert ([c] + t)[..0] == "" && ([c] + t)[..1] == [c] + "";
  }

  lemma {:induction false} EncodeOfReplacement()
    ensures |Encode([REPLACEMENT])| == 3
  {
    EncodeOfCons(REPLACEMENT, "");
  }
}
