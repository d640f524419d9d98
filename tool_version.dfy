/**
 * A tool version record: where to fetch the tool's phar, its optional hash and
 * signature location, and its requirements. Only `merge` changes it after
 * construction.
 */
module ToolVersions {
  import opened Wrappers
  import opened Hashes
  import opened Requirements
  import opened Bundles

  /** What a tool version record holds, as a value. */
  datatype ToolRecord = ToolRecord(
    name: string,
    version: string,
    pharUrl: Option<string>,
    hash: Option<Hash>,
    signatureUrl: Option<string>,
    php: RequirementMap,
    composer: RequirementMap)

  /**
   * `merge` on a nullable string field: the other record's value is taken when it
   * is present and differs from the receiver's.
   */
  function MergedUrl(mine: Option<string>, theirs: Option<string>): (r: Option<string>)
    ensures r == if theirs.Some? then theirs else mine
  {
    if theirs.Some? && theirs != mine then theirs else mine
  }

  /**
   * `merge` on the hash: when the other record has a hash whose type or value
   * differs from the receiver's (or the receiver has none), the receiver gets a
   * hash re-created from that type and value.
   */
  function MergedHash(mine: Option<Hash>, theirs: Option<Hash>): (r: Option<Hash>)
    ensures r == if theirs.Some? then theirs else mine
  {
    if theirs.Some? && (mine.None? || theirs.value.GetType() != mine.value.GetType()
                        || theirs.value.GetValue() != mine.value.GetValue()) then
      CreateRoundTrip(theirs.value);
      Some(Create(theirs.value.GetType(), theirs.value.GetValue()).value)
    else
      if theirs.Some? then EqualsSymmetricAndStructural(theirs.value, mine.value); mine
      else mine
  }

  class ToolVersion {
    /** `getName()`. */
    const name: string
    /** `getVersion()`. */
    const version: string
    /** `getPharUrl()`. */
    var pharUrl: Option<string>
    /** `getSignatureUrl()`. */
    var signatureUrl: Option<string>
    /** `getHash()`. */
    var hash: Option<Hash>
    /** `getRequirements()`. */
    const requirements: ToolRequirements

    ghost predicate Valid()
      reads requirements.php, requirements.composer
    {
      requirements.Valid()
    }

    /**
     * Stores every argument as given; without requirements the record gets a
     * fresh, empty bundle.
     */
    constructor (name: string, version: string, pharUrl: Option<string>, requirements: ToolRequirements?,
                 hash: Option<Hash>, signatureUrl: Option<string>)
      requires requirements != null ==> requirements.Valid()
      ensures Valid()
      ensures this.name == name && this.version == version && this.pharUrl == pharUrl
      ensures this.hash == hash && this.signatureUrl == signatureUrl
      ensures requirements != null ==> this.requirements == requirements
      ensures requirements == null ==>
        && fresh(this.requirements) && fresh(this.requirements.php) && fresh(this.requirements.composer)
        && this.requirements.php.Items() == [] && this.requirements.composer.Items() == []
    {
      this.name := name;
      this.version := version;
      this.pharUrl := pharUrl;
      this.hash := hash;
      this.signatureUrl := signatureUrl;
      if requirements == null {
        var empty := new ToolRequirements();
        this.requirements := empty;
      } else {
        this.requirements := requirements;
      }
    }

    /** The record's current contents. */
    function Snapshot(): ToolRecord
      reads this, requirements.php, requirements.composer
    {
      ToolRecord(name, version, pharUrl, hash, signatureUrl,
                 requirements.php.entries, requirements.composer.entries)
    }

    /**
     * `merge`: pharUrl, signatureUrl and hash take the other record's value when it
     * has one; each requirement list gains the other's entries whose names it lacks
     * and keeps every entry it had. Name, version and the other record stay as they
     * were, and no conflict is reported.
     */
    method Merge(other: ToolVersion)
      requires Valid() && other.Valid()
      requires ToolMergeable(requirements, other.requirements)
      modifies this, requirements.php, requirements.composer
      ensures Valid()
      ensures pharUrl == MergedUrl(old(pharUrl), old(other.pharUrl))
      ensures signatureUrl == MergedUrl(old(signatureUrl), old(other.signatureUrl))
      ensures hash == MergedHash(old(hash), old(other.hash))
      ensures requirements.php.entries
           == Union(old(requirements.php.entries), old(other.requirements.php.Items()))
      ensures requirements.composer.entries
           == Union(old(requirements.composer.entries), old(other.requirements.composer.Items()))
      ensures other != this ==> unchanged(other)
    {
      pharUrl := MergedUrl(pharUrl, other.pharUrl);
      signatureUrl := MergedUrl(signatureUrl, other.signatureUrl);
      hash := MergedHash(hash, other.hash);
      MergeList(requirements.php, other.requirements.php);
      MergeList(requirements.composer, other.requirements.composer);
    }
  }
}
