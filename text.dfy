/** The two string derivations of the generator: `upper` (String.prototype.
    toUpperCase, restricted here to ASCII letters) and the signature, the
    first space-separated word of the name. */
module Text {

  predicate IsLower(c: char) {
    'a' <= c <= 'z'
  }

  /** The string holds no lower-case ASCII letter. */
  predicate NoLower(s: string) {
    forall i :: 0 <= i < |s| ==> !IsLower(s[i])
  }

  /** Upper case of one character: ASCII 'a'..'z' map to 'A'..'Z', every
      other character is left alone. */
  function UpperChar(c: char): (u: char)
    ensures !IsLower(u)
    ensures IsLower(c) ==> 'A' <= u <= 'Z' && u as int - 'A' as int == c as int - 'a' as int
    ensures !IsLower(c) ==> u == c
  {
    if IsLower(c) then (c as int - 32) as char else c
  }

  /** `upper(s)`: the string with every character upper-cased. */
  function Upper(s: string): (r: string)
    ensures |r| == |s|
    ensures forall i :: 0 <= i < |s| ==> r[i] == UpperChar(s[i])
  {
    if s == [] then [] else [UpperChar(s[0])] + Upper(s[1..])
  }

  /** Upper-casing leaves no lower-case letter behind. */
  lemma UpperHasNoLower(s: string)
    ensures NoLower(Upper(s))
  {
  }

  /** Upper-casing twice is upper-casing once. */
  lemma UpperIdempotent(s: string)
    ensures Upper(Upper(s)) == Upper(s)
  {
  }

  /** A string without lower-case letters is its own upper case, as the
      labels "PROVINSI " and "KOTA " are. */
  lemma UpperFixesUpperCase(s: string)
    requires NoLower(s)
    ensures Upper(s) == s
  {
  }

  /** Upper-casing works character by character, so it distributes over
      concatenation. */
  lemma UpperAppend(a: string, b: string)
    ensures Upper(a + b) == Upper(a) + Upper(b)
  {
  }

  /** `s.split(' ')[0]`: the characters before the first space, or the whole
      string when it has none. */
  function FirstWord(s: string): (w: string)
    ensures w <= s
    ensures ' ' !in w
    ensures |w| < |s| ==> s[|w|] == ' '
  {
    if s == [] || s[0] == ' ' then [] else [s[0]] + FirstWord(s[1..])
  }

  /** The three properties of FirstWord determine it: any space-free prefix
      followed by a space or the end of the string is the first word. */
  lemma {:induction false} FirstWordUnique(s: string, w: string)
    requires w <= s && ' ' !in w
    requires |w| < |s| ==> s[|w|] == ' '
    ensures w == FirstWord(s)
  {
  }

  /** `nama.split(' ')[0] || nama`: the first word of the name, or the whole
      name when that word is empty (an empty name or one starting with a
      space). Only the space character separates words. */
  function Signature(nama: string): (r: string)
    ensures ' ' !in nama ==> r == nama
    ensures nama == [] || nama[0] == ' ' ==> r == nama
    ensures nama != [] && nama[0] != ' ' ==>
      r != [] && r <= nama && ' ' !in r && (|r| < |nama| ==> nama[|r|] == ' ')
  {
    var first := FirstWord(nama);
    if first == [] then nama else first
  }

  /** The signature as the first word, spelled out for a few names. */
  lemma SignatureExamples()
    ensures Signature("Budi Santoso") == "Budi"
    ensures Signature("Siti") == "Siti"
    ensures Signature(" Budi") == " Budi"
    ensures Signature("Budi\tSantoso") == "Budi\tSantoso"
  {
    FirstWordUnique("Budi Santoso", "Budi");
    FirstWordUnique("Siti", "Siti");
    FirstWordUnique("Budi\tSantoso", "Budi\tSantoso");
  }
}
