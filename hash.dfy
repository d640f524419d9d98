/**
 * Hash values (the source's ToolHash and PluginHash, which share one shape):
 * an algorithm from a closed set of four and a digest string, created only
 * through a validating factory.
 */
module Hashes {
  import opened Wrappers
  import opened Errors

  datatype Algorithm = Sha1 | Sha256 | Sha384 | Sha512

  /** The type tag an algorithm is written as in a manifest's checksum. */
  function TypeName(a: Algorithm): string {
    match a
    case Sha1 => "sha1"
    case Sha256 => "sha256"
    case Sha384 => "sha384"
    case Sha512 => "sha512"
  }

  /** The algorithm a type tag names, if any. */
  function ParseAlgorithm(s: string): (r: Option<Algorithm>)
    ensures r.Some? ==> TypeName(r.value) == s
    ensures r.None? ==> forall a :: TypeName(a) != s
  {
    if s == "sha1" then Some(Sha1)
    else if s == "sha256" then Some(Sha256)
    else if s == "sha384" then Some(Sha384)
    else if s == "sha512" then Some(Sha512)
    else None
  }

  datatype Hash = Hash(algorithm: Algorithm, value: string) {

    function GetType(): string {
      TypeName(algorithm)
    }

    function GetValue(): string {
      value
    }

    /** Two hashes are equal when both their type and their value agree. */
    predicate Equals(other: Hash) {
      GetType() == other.GetType() && value == other.value
    }
  }

  /** `create(type, value)`: fails on a type tag that names no supported algorithm. */
  function Create(hashType: string, value: string): (r: Result<Hash, Error>)
    ensures r.Ok? <==> exists a :: TypeName(a) == hashType
    ensures r.Ok? ==> r.value.GetType() == hashType && r.value.GetValue() == value
    ensures r.Err? ==> r.error == InvalidHash(hashType, value)
  {
    match ParseAlgorithm(hashType)
    case Some(a) => Ok(Hash(a, value))
    case None => Err(InvalidHash(hashType, value))
  }

  /** Distinct algorithms have distinct type tags. */
  lemma TypeNameInjective(a: Algorithm, b: Algorithm)
    ensures TypeName(a) == TypeName(b) ==> a == b
  {
  }

  /** Re-creating a hash from its own type and value yields that hash. */
  lemma CreateRoundTrip(h: Hash)
    ensures Create(h.GetType(), h.GetValue()) == Ok(h)
  {
    TypeNameInjective(Create(h.GetType(), h.GetValue()).value.algorithm, h.algorithm);
  }

  /** Equality is symmetric and is exactly sameness of type and value. */
  lemma EqualsSymmetricAndStructural(a: Hash, b: Hash)
    ensures a.Equals(b) == b.Equals(a)
    ensures a.Equals(b) <==> a == b
  {
    TypeNameInjective(a.algorithm, b.algorithm);
  }
}
