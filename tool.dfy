/**
 * The tool aggregate: every version of one named tool, keyed by version string
 * in the order they were added.
 */
module Tools {
  import opened Wrappers
  import opened Errors
  import opened OrderedMaps
  import opened ToolVersions

  class Tool {
    /** `getName()`. */
    const name: string
    var versions: OrderedMap<string, ToolVersion>

    /** Every stored version belongs to this tool and is stored under its own version string. */
    ghost predicate Valid()
      reads this
    {
      && versions.Valid()
      && forall k :: k in versions.table ==> versions.table[k].name == name && versions.table[k].version == k
    }

    /** `new Tool($name)`: no versions yet. */
    constructor (name: string)
      ensures this.name == name && Valid() && Iterate() == [] && versions == Empty()
    {
      this.name := name;
      versions := Empty();
    }

    /** `has`. */
    predicate Has(version: string)
      reads this
    {
      version in versions.table
    }

    /** `isEmpty`: no versions have been added. */
    function IsEmpty(): (b: bool)
      reads this
      requires Valid()
      ensures b <==> Iterate() == []
      ensures b <==> forall v :: !Has(v)
    {
      if |versions.keys| == 0 then true else assert Has(versions.keys[0]); false
    }

    /**
     * `getIterator`: the versions in the order they were added; each belongs to
     * this tool, and no version string occurs twice.
     */
    function Iterate(): (r: seq<ToolVersion>)
      reads this
      requires Valid()
      ensures forall i :: 0 <= i < |r| ==> r[i].name == name && Has(r[i].version)
      ensures forall i, j :: 0 <= i < j < |r| ==> r[i].version != r[j].version
      ensures forall v :: Has(v) ==> exists i :: 0 <= i < |r| && r[i].version == v
    {
      var r := versions.Values();
      assert forall i :: 0 <= i < |r| ==> r[i].version == versions.keys[i];
      assert forall v :: Has(v) ==> r[IndexOf(versions.keys, v)].version == v;
      r
    }

    /** `getVersion`: the version stored under the string, or "Version not added". */
    function GetVersion(version: string): (r: Result<ToolVersion, Error>)
      reads this
      requires Valid()
      ensures r.Ok? <==> Has(version)
      ensures r.Ok? ==> r.value.version == version && r.value.name == name && r.value in Iterate()
      ensures r.Err? ==> r.error == VersionNotAdded(version)
    {
      if !Has(version) then
        Err(VersionNotAdded(version))
      else
        assert versions.Values()[IndexOf(versions.keys, version)] == versions.table[version];
        Ok(versions.table[version])
    }

    /**
     * `addVersion`: a version of another tool is refused with "Tool name mismatch",
     * a version string already present with "Version already added"; otherwise
     * the version is appended and retrievable under its version string.
     */
    method AddVersion(v: ToolVersion) returns (res: Outcome<Error>)
      requires Valid()
      modifies this
      ensures Valid()
      ensures v.name != name ==> res == Fail(ToolNameMismatch(v.name))
      ensures v.name == name && old(Has(v.version)) ==> res == Fail(VersionAlreadyAdded(v.version))
      ensures res.Pass? <==> v.name == name && !old(Has(v.version))
      ensures res.Fail? ==> versions == old(versions) && unchanged(this)
      ensures res.Pass? ==> versions == old(versions).Put(v.version, v)
      ensures res.Pass? ==> Iterate() == old(Iterate()) + [v] && GetVersion(v.version) == Ok(v)
    {
      if v.name != name {
        return Fail(ToolNameMismatch(v.name));
      }
      if Has(v.version) {
        return Fail(VersionAlreadyAdded(v.version));
      }
      PutNewAppends(versions, v.version, v);
      versions := versions.Put(v.version, v);
      return Pass;
    }
  }
}
