/** Cleaning a cross-company text to fit a byte budget (modules/inter_company/service.py, _sanitize). */
module Sanitizing {
  import opened Common
  import opened Utf8

  /** ASCII controls other than tab, line feed and carriage return. */
  predicate Control(c: CodePoint) {
    c <= 0x08 || c == 0x0b || c == 0x0c || 0x0e <= c <= 0x1f || c == 0x7f
  }

  function Cleaned(t: Text): (r: Text)
    ensures forall c :: c in r <==> c in t && !Control(c)
    ensures |r| <= |t|
  {
    if t == [] then []
    else if Control(t[0]) then Cleaned(t[1..])
    else [t[0]] + Cleaned(t[1..])
  }

  /** None is the encoding error a lone surrogate raises. */
  function Sanitize(t: Text, maxBytes: nat): Option<Text> {
    var cleaned := Cleaned(t);
    if !Encodable(cleaned) then None
    else
      var encoded := Encode(cleaned);
      if |encoded| > maxBytes then Some(DecodeIgnoring(encoded[..maxBytes])) else Some(cleaned)
  }

  /** p is a prefix of the cleaned text and its encoding fits. */
  predicate Fits(p: Text, t: Text, maxBytes: nat) {
    p <= Cleaned(t) && |Encode(p)| <= maxBytes
  }

  /** Cleaning goes character by character, in order: a control vanishes, any other character stays. */
  lemma {:induction false} CleanedInOrder(t: Text, c: CodePoint)
    ensures Cleaned([]) == []
    ensures Cleaned(t + [c]) == Cleaned(t) + (if (c < 32 && c !in {9, 10, 13}) || c == 127 then [] else [c])
  {
    if t != [] {
      assert (t + [c])[1..] == t[1..] + [c];
      CleanedInOrder(t[1..], c);
    } else {
      assert [c][1..] == [];
    }
  }

  lemma {:induction false} CleanedKeepsClean(t: Text)
    requires forall c :: c in t ==> !Control(c)
    ensures Cleaned(t) == t
  {
    if t != [] {
      CleanedKeepsClean(t[1..]);
    }
  }

  /** Byte truncation loses exactly what does not fit: the result is the longest prefix that does. */
  lemma SanitizeIsLongestFit(t: Text, maxBytes: nat)
    ensures Sanitize(t, maxBytes).None? <==> exists c :: c in t && 0xD800 <= c <= 0xDFFF
    ensures Sanitize(t, maxBytes).Some? ==> (
      && Fits(Sanitize(t, maxBytes).value, t, maxBytes)
      && forall p :: Fits(p, t, maxBytes) ==> p <= Sanitize(t, maxBytes).value)
  {
    var cleaned := Cleaned(t);
    assert Encodable(cleaned) <==> forall c :: c in cleaned ==> !Surrogate(c);
    if Encodable(cleaned) {
      var encoded := Encode(cleaned);
      if |encoded| > maxBytes {
        var k := Whole(cleaned, maxBytes);
        CutDecodes(cleaned, maxBytes);
        WholeFits(cleaned, maxBytes);
        forall p | Fits(p, t, maxBytes)
          ensures p <= cleaned[..k]
        {
          assert p == cleaned[..|p|];
          if |p| > k {
            EncodeGrows(cleaned, k + 1, |p|);
          }
        }
      }
    }
  }

  /** Cleaning twice changes nothing more. */
  lemma SanitizeIsIdempotent(t: Text, maxBytes: nat)
    requires Sanitize(t, maxBytes).Some?
    ensures Sanitize(Sanitize(t, maxBytes).value, maxBytes) == Sanitize(t, maxBytes)
  {
    var r := Sanitize(t, maxBytes).value;
    SanitizeIsLongestFit(t, maxBytes);
    assert forall c :: c in r ==> c in Cleaned(t);
    CleanedKeepsClean(r);
    assert Encodable(r);
  }

  /** A larger budget keeps at least as much. */
  lemma SanitizeIsMonotone(t: Text, small: nat, large: nat)
    requires small <= large && Sanitize(t, small).Some?
    ensures Sanitize(t, large).Some? && Sanitize(t, small).value <= Sanitize(t, large).value
  {
    SanitizeIsLongestFit(t, small);
    SanitizeIsLongestFit(t, large);
    assert Fits(Sanitize(t, small).value, t, large);
  }
}
