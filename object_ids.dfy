/**
 * The identifier codec: turning a legacy textual `guid` into the store's
 * native ObjectId when it parses as one, and passing it through untouched
 * when it does not (index.js:198-207).
 *
 * The ObjectId library itself is not part of this model; it is represented by
 * the behaviour the layer relies on: `createFromHexString` accepts exactly the
 * strings of 24 hexadecimal digits, and an ObjectId renders as its hex text in
 * lower case.
 */
module ObjectIds {
  import opened JsValues

  predicate IsHexDigit(c: char) {
    '0' <= c <= '9' || 'a' <= c <= 'f' || 'A' <= c <= 'F'
  }

  predicate IsHexId(s: string) {
    |s| == 24 && forall i :: 0 <= i < |s| ==> IsHexDigit(s[i])
  }

  function LowerChar(c: char): char {
    if 'A' <= c <= 'Z' then (c as int + 32) as char else c
  }

  function Lower(s: string): (r: string)
    ensures |r| == |s|
  {
    seq(|s|, i requires 0 <= i < |s| => LowerChar(s[i]))
  }

  /** The text an ObjectId renders to: 24 lower-case hex digits. */
  predicate Canonical(hex: string) {
    IsHexId(hex) && Lower(hex) == hex
  }

  lemma LowerCanonical(s: string)
    requires IsHexId(s)
    ensures Canonical(Lower(s))
  {
    var l := Lower(s);
    forall i | 0 <= i < |l| ensures IsHexDigit(l[i]) && LowerChar(l[i]) == l[i] {
      assert l[i] == LowerChar(s[i]);
    }
    assert Lower(l) == l;
  }

  /** `ObjectId.createFromHexString`: raises on anything but 24 hex digits. */
  function CreateFromHexString(v: Value): (r: Result<Value>)
    ensures r.Ok? <==> v.Str? && IsHexId(v.s)
    ensures r.Ok? ==> r.value.ObjectId? && Canonical(r.value.hex) && ToText(r.value) == Lower(v.s)
  {
    if v.Str? && IsHexId(v.s) then
      LowerCanonical(v.s);
      Ok(ObjectId(Lower(v.s)))
    else Throw(TypeError)
  }

  /**
   * `createObjectIdFromHexString`: never raises; the parsed id, or the input
   * itself when the library rejects it.
   */
  function Decode(v: Value): (r: Value)
    ensures CreateFromHexString(v).Ok? ==> r == CreateFromHexString(v).value
    ensures CreateFromHexString(v).Throw? ==> r == v
    ensures r != v ==> v.Str? && r.ObjectId?
  {
    match CreateFromHexString(v)
    case Ok(id) => id
    case Throw(_) => v
  }

  /** The guid an ObjectId renders to decodes back to that same ObjectId. */
  lemma DecodeRendered(hex: string)
    requires Canonical(hex)
    ensures Decode(Str(ToText(ObjectId(hex)))) == ObjectId(hex)
  {
  }

  /** Hex digits are matched without regard to case. */
  lemma DecodeIgnoresCase(s: string)
    requires IsHexId(s)
    ensures Decode(Str(Lower(s))) == Decode(Str(s))
  {
    LowerCanonical(s);
  }

  /** Decoding an already decoded value changes nothing. */
  lemma DecodeIdempotent(v: Value)
    ensures Decode(Decode(v)) == Decode(v)
  {
  }
}
