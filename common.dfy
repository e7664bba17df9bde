/** Value types shared by every part of the model: Java's nullable references
    become Option, exceptions become the Failure side of Result. */
module Common {

  datatype Option<+T> = None | Some(value: T)

  datatype Result<+R, +E> = Success(value: R) | Failure(error: E)

  /** One Java byte, taken as its unsigned value. */
  newtype byte = x: int | 0 <= x < 256

  /** A java.util.UUID, kept opaque: only equality is ever used. */
  type Uuid = string

  const Separator: char := '/'

  /** True when `s` begins with the path separator. */
  predicate HasLeadingSlash(s: string) {
    |s| > 0 && s[0] == Separator
  }

  /** Credential and CA names always carry a leading separator: a name
      without one gets it prepended, a name that has one is kept, the empty
      name stays empty and an absent name stays absent. */
  function NormalizeName(name: Option<string>): (r: Option<string>)
    ensures r.None? <==> name.None?
    ensures name == Some("") ==> r == Some("")
    ensures name.Some? && name.value != "" ==> HasLeadingSlash(r.value)
    ensures name.Some? && HasLeadingSlash(name.value) ==> r == name
    ensures name.Some? && name.value != "" && !HasLeadingSlash(name.value) ==>
              r.value[1..] == name.value && |r.value| == |name.value| + 1
  {
    match name
    case None => None
    case Some(n) =>
      if n == "" || HasLeadingSlash(n) then Some(n) else Some([Separator] + n)
  }

  /** Normalising twice is the same as normalising once. */
  lemma NormalizeNameIdempotent(name: Option<string>)
    ensures NormalizeName(NormalizeName(name)) == NormalizeName(name)
  {
  }

  /** Normalisation loses nothing: two names that normalise alike differ at
      most by the leading separator. */
  lemma NormalizeNameKeepsPath(a: string, b: string)
    requires NormalizeName(Some(a)) == NormalizeName(Some(b))
    ensures a == b || a == [Separator] + b || b == [Separator] + a
  {
  }
}
