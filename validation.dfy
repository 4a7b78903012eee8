/** The request checks that stand between the handler and the generator:
    the required fields must be present and non-empty, and the NIK must be
    exactly sixteen ASCII digits. */
module Validation {

  /** A parsed JSON request body whose values are strings. */
  type Body = map<string, string>

  const RequiredFields: seq<string> := ["nama", "nik", "pas_photo", "provinsi", "kota"]

  /** `!body[field]`: the field is absent or the empty string (the only
      falsy string). */
  predicate IsMissing(body: Body, field: string) {
    field !in body || body[field] == ""
  }

  /** a keeps some of the elements of b, in b's order. */
  predicate IsSubsequence<T(==)>(a: seq<T>, b: seq<T>)
    decreases |b|
  {
    if a == [] then true
    else if b == [] then false
    else if a[0] == b[0] then IsSubsequence(a[1..], b[1..])
    else IsSubsequence(a, b[1..])
  }

  /** `fields.filter(field => !body[field])`: the fields that are missing,
      in the order they are listed. */
  function MissingFields(fields: seq<string>, body: Body): (r: seq<string>)
    ensures forall f :: f in r <==> f in fields && IsMissing(body, f)
    ensures IsSubsequence(r, fields)
    ensures forall f :: multiset(r)[f] == if IsMissing(body, f) then multiset(fields)[f] else 0
  {
    if fields == [] then []
    else
      assert multiset(fields) == multiset{fields[0]} + multiset(fields[1..]) by {
        assert fields == [fields[0]] + fields[1..];
      }
      if IsMissing(body, fields[0]) then [fields[0]] + MissingFields(fields[1..], body)
      else MissingFields(fields[1..], body)
  }

  predicate IsAsciiDigit(c: char) {
    '0' <= c <= '9'
  }

  /** The anchored pattern `^\d{n}$`: exactly n characters, each in '0'..'9'. */
  function MatchesDigits(s: string, n: nat): (b: bool)
    ensures b <==> |s| == n && forall i :: 0 <= i < |s| ==> IsAsciiDigit(s[i])
  {
    if n == 0 then s == []
    else s != [] && IsAsciiDigit(s[0]) && MatchesDigits(s[1..], n - 1)
  }

  /** `/^\d{16}$/.test(nik)`: sixteen characters, every one an ASCII digit. */
  function IsValidNik(nik: string): (ok: bool)
    ensures ok <==> |nik| == 16 && forall i :: 0 <= i < 16 ==> IsAsciiDigit(nik[i])
  {
    MatchesDigits(nik, 16)
  }

  /** What the handler decides about a POST body. */
  datatype Verdict =
    | MissingRequired(fields: seq<string>)  // 400 "Missing required fields"
    | InvalidNik                            // 400 "Invalid NIK"
    | Generate                              // the card is rendered

  /** The two checks, in the handler's order: missing fields first, then
      the NIK format. Rendering is reached exactly when every required field
      is present and non-empty and the NIK is sixteen ASCII digits. */
  function Validate(body: Body): (v: Verdict)
    ensures v.Generate? <==>
      (forall f :: f in RequiredFields ==> !IsMissing(body, f))
      && "nik" in body && |body["nik"]| == 16
      && forall i :: 0 <= i < 16 ==> IsAsciiDigit(body["nik"][i])
    ensures v.MissingRequired? <==> exists f :: f in RequiredFields && IsMissing(body, f)
    ensures v.MissingRequired? ==>
      v.fields != [] && IsSubsequence(v.fields, RequiredFields)
      && forall f :: f in v.fields <==> f in RequiredFields && IsMissing(body, f)
  {
    var missing := MissingFields(RequiredFields, body);
    if |missing| > 0 then
      assert missing[0] in missing;
      MissingRequired(missing)
    else
      assert "nik" in RequiredFields && !IsMissing(body, "nik");
      if !IsValidNik(body["nik"]) then InvalidNik else Generate
  }
}
