/** The device fingerprint: visitor id, user agent, language and timezone,
    each defaulted to "unknown" when falsy, joined with '_' and hashed.
    SHA-256 is taken to be injective, so the digest is identified with the
    string that is hashed: two attempts share a digest exactly when they
    share that string. */
module Fingerprint {
  import opened Common

  const Unknown: string := "unknown"
  const Delimiter: char := '_'

  /** `value || 'unknown'` */
  function OrUnknown(s: Option<string>): (r: string)
    ensures r != ""
    ensures Present(s) ==> r == s.value
    ensures !Present(s) ==> r == Unknown
  {
    if Present(s) then s.value else Unknown
  }

  function FingerprintOf(visitorId: Option<string>, userAgent: Option<string>,
                         language: Option<string>, timezone: Option<string>): string
  {
    OrUnknown(visitorId) + ([Delimiter] + (OrUnknown(userAgent) + ([Delimiter]
      + (OrUnknown(language) + ([Delimiter] + OrUnknown(timezone))))))
  }

  /** Defaulting twice is defaulting once (`(x || 'unknown') || 'unknown'`). */
  lemma OrUnknownIdempotent(s: Option<string>)
    ensures OrUnknown(Some(OrUnknown(s))) == OrUnknown(s)
  {
  }

  /** An absent field, an empty field and the literal "unknown" are indistinguishable. */
  lemma AbsentFieldIsUnknown(u: Option<string>, l: Option<string>, t: Option<string>)
    ensures FingerprintOf(None, u, l, t) == FingerprintOf(Some(""), u, l, t)
                                         == FingerprintOf(Some(Unknown), u, l, t)
    ensures FingerprintOf(u, None, l, t) == FingerprintOf(u, Some(Unknown), l, t)
    ensures FingerprintOf(u, l, None, t) == FingerprintOf(u, l, Some(Unknown), t)
    ensures FingerprintOf(u, l, t, None) == FingerprintOf(u, l, t, Some(Unknown))
  {
  }

  lemma CancelPrefix(p: string, x: string, y: string)
    requires p + x == p + y
    ensures x == y
  {
    assert x == (p + x)[|p|..];
    assert y == (p + y)[|p|..];
  }

  lemma CancelSuffix(x: string, y: string, s: string)
    requires x + s == y + s
    ensures x == y
  {
    assert |x| == |y|;
    assert x == (x + s)[..|x|];
    assert y == (y + s)[..|y|];
  }

  /** Changing any single field, after defaulting, changes the digest. */
  lemma {:induction false} EachFieldChangesDigest(
    v: Option<string>, u: Option<string>, l: Option<string>, t: Option<string>,
    v': Option<string>, u': Option<string>, l': Option<string>, t': Option<string>)
    ensures OrUnknown(v) != OrUnknown(v') ==> FingerprintOf(v, u, l, t) != FingerprintOf(v', u, l, t)
    ensures OrUnknown(u) != OrUnknown(u') ==> FingerprintOf(v, u, l, t) != FingerprintOf(v, u', l, t)
    ensures OrUnknown(l) != OrUnknown(l') ==> FingerprintOf(v, u, l, t) != FingerprintOf(v, u, l', t)
    ensures OrUnknown(t) != OrUnknown(t') ==> FingerprintOf(v, u, l, t) != FingerprintOf(v, u, l, t')
  {
    var d := [Delimiter];
    var V, U, L, T := OrUnknown(v), OrUnknown(u), OrUnknown(l), OrUnknown(t);
    var V', U', L', T' := OrUnknown(v'), OrUnknown(u'), OrUnknown(l'), OrUnknown(t');
    var R3 := d + T;
    var R2 := d + (L + R3);
    var R1 := d + (U + R2);
    if FingerprintOf(v, u, l, t) == FingerprintOf(v', u, l, t) {
      CancelSuffix(V, V', R1);
    }
    if FingerprintOf(v, u, l, t) == FingerprintOf(v, u', l, t) {
      CancelPrefix(V, d + (U + R2), d + (U' + R2));
      CancelPrefix(d, U + R2, U' + R2);
      CancelSuffix(U, U', R2);
    }
    if FingerprintOf(v, u, l, t) == FingerprintOf(v, u, l', t) {
      CancelPrefix(V, d + (U + (d + (L + R3))), d + (U + (d + (L' + R3))));
      CancelPrefix(d, U + (d + (L + R3)), U + (d + (L' + R3)));
      CancelPrefix(U, d + (L + R3), d + (L' + R3));
      CancelPrefix(d, L + R3, L' + R3);
      CancelSuffix(L, L', R3);
    }
    if FingerprintOf(v, u, l, t) == FingerprintOf(v, u, l, t') {
      CancelPrefix(V, d + (U + (d + (L + (d + T)))), d + (U + (d + (L + (d + T')))));
      CancelPrefix(d, U + (d + (L + (d + T))), U + (d + (L + (d + T'))));
      CancelPrefix(U, d + (L + (d + T)), d + (L + (d + T')));
      CancelPrefix(d, L + (d + T), L + (d + T'));
      CancelPrefix(L, d + T, d + T');
      CancelPrefix(d, T, T');
    }
  }

  /** The delimiter is not escaped: two devices that differ in two fields can share a digest. */
  lemma DelimiterInFieldsCollides(l: Option<string>, t: Option<string>)
    ensures FingerprintOf(Some("a_b"), Some("c"), l, t) == FingerprintOf(Some("a"), Some("b_c"), l, t)
  {
    var rest := [Delimiter] + (OrUnknown(l) + ([Delimiter] + OrUnknown(t)));
    assert "a_b" + [Delimiter] + "c" == "a" + [Delimiter] + "b_c" == "a_b_c";
    assert "a_b" + ([Delimiter] + ("c" + rest)) == ("a_b" + [Delimiter] + "c") + rest;
    assert "a" + ([Delimiter] + ("b_c" + rest)) == ("a" + [Delimiter] + "b_c") + rest;
  }
}
