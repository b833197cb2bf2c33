/** UTF-8 as section 3 of RFC 3629 defines it, and decoding that ignores what is ill-formed. */
module Utf8 {
  import opened Common

  /** A code point, surrogates included: the source's strings may hold those. */
  type CodePoint = c: nat | c < 0x11_0000

  type Text = seq<CodePoint>

  type Byte = b: nat | b < 0x100

  predicate Surrogate(c: CodePoint) {
    0xD800 <= c < 0xE000
  }

  predicate Encodable(t: Text) {
    forall i :: 0 <= i < |t| ==> !Surrogate(t[i])
  }

  function EncodeChar(c: CodePoint): seq<Byte> {
    if c < 0x80 then [c]
    else if c < 0x800 then [0xC0 + c / 0x40, 0x80 + c % 0x40]
    else if c < 0x1_0000 then [0xE0 + c / 0x1000, 0x80 + c / 0x40 % 0x40, 0x80 + c % 0x40]
    else [0xF0 + c / 0x4_0000, 0x80 + c / 0x1000 % 0x40, 0x80 + c / 0x40 % 0x40, 0x80 + c % 0x40]
  }

  function Encode(t: Text): seq<Byte> {
    if t == [] then [] else EncodeChar(t[0]) + Encode(t[1..])
  }

  function Width(c: CodePoint): (w: nat)
    ensures w == |EncodeChar(c)|
  {
    if c < 0x80 then 1 else if c < 0x800 then 2 else if c < 0x1_0000 then 3 else 4
  }

  predicate Continuation(b: Byte) {
    0x80 <= b < 0xC0
  }

  /** The character a well-formed byte sequence at the front of s stands for (the ABNF of section 4). */
  function First(s: seq<Byte>): (r: Option<CodePoint>)
    ensures r.Some? ==> Width(r.value) <= |s|
  {
    if s == [] then None
    else if s[0] < 0x80 then Some(s[0])
    else if |s| >= 2 && 0xC2 <= s[0] < 0xE0 && Continuation(s[1]) then
      Some((s[0] as int - 0xC0) * 0x40 + (s[1] as int - 0x80))
    else if |s| >= 3 && 0xE0 <= s[0] < 0xF0 && Continuation(s[1]) && Continuation(s[2])
            && (s[0] == 0xE0 ==> s[1] >= 0xA0) && (s[0] == 0xED ==> s[1] < 0xA0) then
      Some((s[0] as int - 0xE0) * 0x1000 + (s[1] as int - 0x80) * 0x40 + (s[2] as int - 0x80))
    else if |s| >= 4 && 0xF0 <= s[0] < 0xF5 && Continuation(s[1]) && Continuation(s[2]) && Continuation(s[3])
            && (s[0] == 0xF0 ==> s[1] >= 0x90) && (s[0] == 0xF4 ==> s[1] < 0x90) then
      Some((s[0] as int - 0xF0) * 0x4_0000 + (s[1] as int - 0x80) * 0x1000 + (s[2] as int - 0x80) * 0x40 + (s[3] as int - 0x80))
    else None
  }

  /**
   Decoding with ill-formed bytes left out. Where the front is ill-formed one byte is dropped; dropping a
   whole truncated character at once gives the same text, since what remains of it cannot start a character.
   */
  function DecodeIgnoring(s: seq<Byte>): Text
    decreases |s|
  {
    if s == [] then []
    else
      var c := First(s);
      if c.Some? then [c.value] + DecodeIgnoring(s[Width(c.value)..])
      else DecodeIgnoring(s[1..])
  }

  /** Dropping a truncated character whole, first byte and continuation bytes, is what dropping byte by byte comes to. */
  lemma {:induction false} TruncatedDropped(s: seq<Byte>, m: nat)
    requires 1 <= m <= |s| && First(s).None? && forall i :: 1 <= i < m ==> Continuation(s[i])
    ensures DecodeIgnoring(s) == DecodeIgnoring(s[m..])
    decreases |s|
  {
    if m > 1 {
      TruncatedDropped(s[1..], m - 1);
      assert s[1..][m - 1..] == s[m..];
    }
  }

  /** A character decodes to itself whatever bytes follow. */
  lemma FirstOfEncoded(c: CodePoint, rest: seq<Byte>)
    requires !Surrogate(c)
    ensures First(EncodeChar(c) + rest) == Some(c)
  {
    var s := EncodeChar(c) + rest;
    if c < 0x80 {
      assert s[0] == c;
    } else if c < 0x800 {
      assert s[0] == 0xC0 + c / 0x40 && s[1] == 0x80 + c % 0x40;
    } else if c < 0x1_0000 {
      assert s[0] == 0xE0 + c / 0x1000 && s[1] == 0x80 + c / 0x40 % 0x40 && s[2] == 0x80 + c % 0x40;
      ThreeParts(c);
    } else {
      assert s[0] == 0xF0 + c / 0x4_0000 && s[1] == 0x80 + c / 0x1000 % 0x40;
      assert s[2] == 0x80 + c / 0x40 % 0x40 && s[3] == 0x80 + c % 0x40;
      ThreeParts(c);
      FourParts(c);
    }
  }

  /** And nothing else decodes: only the encoding of a character that is no surrogate, in its shortest form. */
  lemma FirstIsEncoded(s: seq<Byte>)
    requires First(s).Some?
    ensures
      var c := First(s).value;
      !(0xD800 <= c <= 0xDFFF) && Width(c) <= |s| && s[..Width(c)] == EncodeChar(c)
  {
    var c := First(s).value;
    if s[0] < 0x80 {
      assert s[..1] == [c];
    } else if s[0] < 0xE0 {
      Digits(c, s[0] as int - 0xC0, s[1] as int - 0x80);
      assert s[..2] == EncodeChar(c);
    } else if s[0] < 0xF0 {
      Digits(c, (s[0] as int - 0xE0) * 0x40 + (s[1] as int - 0x80), s[2] as int - 0x80);
      Digits(c / 0x40, s[0] as int - 0xE0, s[1] as int - 0x80);
      assert c / 0x1000 == c / 0x40 / 0x40;
      assert s[..3] == EncodeChar(c);
    } else {
      FourIsEncoded(s);
    }
  }

  lemma FourIsEncoded(s: seq<Byte>)
    requires First(s).Some? && s[0] >= 0xF0
    ensures First(s).value >= 0x1_0000 && s[..4] == EncodeChar(First(s).value)
  {
    var c := First(s).value;
    Digits(c, (s[0] as int - 0xF0) * 0x1000 + (s[1] as int - 0x80) * 0x40 + (s[2] as int - 0x80), s[3] as int - 0x80);
    Digits(c / 0x40, (s[0] as int - 0xF0) * 0x40 + (s[1] as int - 0x80), s[2] as int - 0x80);
    Digits(c / 0x40 / 0x40, s[0] as int - 0xF0, s[1] as int - 0x80);
    assert c / 0x1000 == c / 0x40 / 0x40 && c / 0x4_0000 == c / 0x40 / 0x40 / 0x40;
  }

  lemma Digits(c: nat, high: nat, low: nat)
    requires c == high * 0x40 + low && low < 0x40
    ensures c / 0x40 == high && c % 0x40 == low
  {
  }

  /** The examples of section 7 of RFC 3629. */
  lemma ExamplesOfTheStandard()
    ensures EncodeChar(0x41) == [0x41] && EncodeChar(0x2262) == [0xE2, 0x89, 0xA2] && EncodeChar(0x391) == [0xCE, 0x91]
    ensures EncodeChar(0xD55C) == [0xED, 0x95, 0x9C] && EncodeChar(0xAD6D) == [0xEA, 0xB5, 0xAD]
    ensures EncodeChar(0x65E5) == [0xE6, 0x97, 0xA5] && EncodeChar(0xFEFF) == [0xEF, 0xBB, 0xBF]
    ensures EncodeChar(0x2_33B4) == [0xF0, 0xA3, 0x8E, 0xB4]
  {
  }

  lemma ThreeParts(c: nat)
    ensures c == c / 0x1000 * 0x1000 + c / 0x40 % 0x40 * 0x40 + c % 0x40
  {
    assert c / 0x1000 == c / 0x40 / 0x40;
  }

  lemma FourParts(c: nat)
    ensures c / 0x1000 == c / 0x4_0000 * 0x40 + c / 0x1000 % 0x40
  {
    assert c / 0x4_0000 == c / 0x1000 / 0x40;
  }

  /** A character cut short decodes to nothing. */
  lemma CutCharVanishes(c: CodePoint, m: nat)
    requires !Surrogate(c) && m < Width(c)
    ensures DecodeIgnoring(EncodeChar(c)[..m]) == []
  {
    var s := EncodeChar(c)[..m];
    TailVanishes(EncodeChar(c)[1..][..if m == 0 then 0 else m - 1]);
    if m > 0 {
      assert s[1..] == EncodeChar(c)[1..][..m - 1];
      assert First(s) == None;
    }
  }

  lemma {:induction false} TailVanishes(s: seq<Byte>)
    requires forall i :: 0 <= i < |s| ==> Continuation(s[i])
    ensures DecodeIgnoring(s) == []
  {
    if s != [] {
      TailVanishes(s[1..]);
    }
  }

  lemma DecodeOfEncode(t: Text)
    requires Encodable(t)
    ensures DecodeIgnoring(Encode(t)) == t
  {
    var n := |Encode(t)|;
    CutDecodes(t, n);
    WholeFits(t, n);
    assert Encode(t)[..n] == Encode(t);
    if Whole(t, n) < |t| {
      EncodeOfPrefix(t, Whole(t, n) + 1);
    }
    assert t[..|t|] == t;
  }

  /** The encoding of a prefix is a prefix of the encoding. */
  lemma {:induction false} EncodeOfPrefix(t: Text, k: nat)
    requires k <= |t|
    ensures Encode(t[..k]) <= Encode(t)
  {
    if k > 0 {
      EncodeOfPrefix(t[1..], k - 1);
      assert t[..k][1..] == t[1..][..k - 1] && t[..k][0] == t[0];
    }
  }

  /** Longer prefixes take more bytes. */
  lemma {:induction false} EncodeGrows(t: Text, j: nat, k: nat)
    requires j <= k <= |t|
    ensures |Encode(t[..j])| + (k - j) <= |Encode(t[..k])|
  {
    if j > 0 {
      EncodeGrows(t[1..], j - 1, k - 1);
      assert t[..j][1..] == t[1..][..j - 1] && t[..k][1..] == t[1..][..k - 1];
    } else if k > 0 {
      EncodeGrows(t[1..], 0, k - 1);
      assert t[..k][1..] == t[1..][..k - 1];
    }
  }

  lemma DecodeStep(c: CodePoint, rest: seq<Byte>)
    requires !Surrogate(c)
    ensures DecodeIgnoring(EncodeChar(c) + rest) == [c] + DecodeIgnoring(rest)
  {
    FirstOfEncoded(c, rest);
    assert (EncodeChar(c) + rest)[Width(c)..] == rest;
  }

  lemma EncodePrefix(t: Text, k: nat)
    requires k < |t|
    ensures |Encode(t[..k + 1])| == Width(t[0]) + |Encode(t[1..][..k])|
  {
    assert t[..k + 1][0] == t[0] && t[..k + 1][1..] == t[1..][..k];
  }

  /** How many whole characters at the front of t fit n bytes. */
  function Whole(t: Text, n: nat): (k: nat)
    ensures k <= |t|
  {
    if t == [] || n < Width(t[0]) then 0 else 1 + Whole(t[1..], n - Width(t[0]))
  }

  lemma {:induction false} WholeFits(t: Text, n: nat)
    ensures |Encode(t[..Whole(t, n)])| <= n
    ensures Whole(t, n) < |t| ==> |Encode(t[..Whole(t, n) + 1])| > n
  {
    if t != [] {
      EncodePrefix(t, 0);
      assert t[1..][..0] == [];
      if n >= Width(t[0]) {
        var k := Whole(t[1..], n - Width(t[0]));
        WholeFits(t[1..], n - Width(t[0]));
        EncodePrefix(t, k);
        if k + 1 < |t| {
          EncodePrefix(t, k + 1);
        }
      }
    }
  }

  /** Cutting the bytes of a text anywhere and decoding loses the one character cut, and no other. */
  lemma {:induction false} CutDecodes(t: Text, n: nat)
    requires Encodable(t) && n <= |Encode(t)|
    ensures DecodeIgnoring(Encode(t)[..n]) == t[..Whole(t, n)]
    decreases |t|
  {
    if t != [] {
      if n < Width(t[0]) {
        CutInFirst(t, n);
      } else {
        CutLater(t, n);
        CutDecodes(t[1..], n - Width(t[0]));
        assert t[..Whole(t, n)] == [t[0]] + t[1..][..Whole(t[1..], n - Width(t[0]))];
      }
    }
  }

  lemma CutInFirst(t: Text, n: nat)
    requires Encodable(t) && t != [] && n < Width(t[0])
    ensures n <= |Encode(t)| && DecodeIgnoring(Encode(t)[..n]) == []
  {
    assert Encode(t)[..n] == EncodeChar(t[0])[..n];
    CutCharVanishes(t[0], n);
  }

  lemma CutLater(t: Text, n: nat)
    requires Encodable(t) && t != [] && Width(t[0]) <= n <= |Encode(t)|
    ensures |Encode(t)| == Width(t[0]) + |Encode(t[1..])|
    ensures DecodeIgnoring(Encode(t)[..n]) == [t[0]] + DecodeIgnoring(Encode(t[1..])[..n - Width(t[0])])
  {
    var cut := Encode(t[1..])[..n - Width(t[0])];
    assert Encode(t)[..n] == EncodeChar(t[0]) + cut;
    DecodeStep(t[0], cut);
  }
}
