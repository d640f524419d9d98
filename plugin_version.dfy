/**
 * Plugin version records: the common part every plugin version shares (name,
 * version, api version, hash, requirements, file path, optional signature path)
 * and the variant a record was built as. A php-file version has no extra
 * fields; a phar-file version also records the path of the plugin inside the
 * archive.
 */
module PluginVersions {
  import opened Wrappers
  import opened Errors
  import opened Hashes
  import opened Requirements
  import opened Bundles

  /** The only plugin api version accepted. */
  const SupportedApiVersion: string := "1.0.0"

  datatype PluginKind = PhpFile | PharFile(pluginPath: string)

  /** What a plugin version record holds, as a value. */
  datatype PluginRecord = PluginRecord(
    name: string,
    version: string,
    apiVersion: string,
    hash: Hash,
    filePath: string,
    signaturePath: Option<string>,
    kind: PluginKind,
    php: RequirementMap,
    tool: RequirementMap,
    plugin: RequirementMap,
    composer: RequirementMap)

  class PluginVersion {
    /** `getName()`. */
    const name: string
    /** `getVersion()`. */
    const version: string
    const apiVersion: string
    /** `getHash()`. */
    const hash: Hash
    /** `getRequirements()`. */
    const requirements: PluginRequirements
    /** `getFilePath()`. */
    const filePath: string
    /** `getSignaturePath()`. */
    const signaturePath: Option<string>
    const kind: PluginKind

    /** Construction only succeeds for the supported api version. */
    predicate Supported() {
      apiVersion == SupportedApiVersion
    }

    ghost predicate Valid()
      reads requirements.php, requirements.tool, requirements.plugin, requirements.composer
    {
      Supported() && requirements.Valid()
    }

    /** The field assignments of the constructor, once the api version has been checked. */
    constructor Init(name: string, version: string, apiVersion: string, requirements: PluginRequirements,
                     filePath: string, signaturePath: Option<string>, hash: Hash, kind: PluginKind)
      ensures this.name == name && this.version == version && this.apiVersion == apiVersion
      ensures this.requirements == requirements && this.filePath == filePath
      ensures this.signaturePath == signaturePath && this.hash == hash && this.kind == kind
    {
      this.name := name;
      this.version := version;
      this.apiVersion := apiVersion;
      this.hash := hash;
      this.filePath := filePath;
      this.signaturePath := signaturePath;
      this.requirements := requirements;
      this.kind := kind;
    }

    /**
     * The constructor shared by every variant: rejects any api version but
     * "1.0.0" before storing anything, stores the arguments as given, and
     * supplies a fresh, empty bundle when no requirements are given.
     */
    static method Construct(name: string, version: string, apiVersion: string, requirements: PluginRequirements?,
                            filePath: string, signaturePath: Option<string>, hash: Hash, kind: PluginKind)
      returns (res: Result<PluginVersion, Error>)
      requires requirements != null ==> requirements.Valid()
      ensures res.Err? <==> apiVersion != SupportedApiVersion
      ensures res.Err? ==> res.error == InvalidApiVersion(apiVersion)
      ensures res.Ok? ==>
        && fresh(res.value) && res.value.Valid()
        && res.value.name == name && res.value.version == version && res.value.apiVersion == apiVersion
        && res.value.filePath == filePath && res.value.signaturePath == signaturePath
        && res.value.hash == hash && res.value.kind == kind
      ensures res.Ok? && requirements != null ==> res.value.requirements == requirements
      ensures res.Ok? && requirements == null ==>
        && fresh(res.value.requirements)
        && fresh(res.value.requirements.php) && fresh(res.value.requirements.tool)
        && fresh(res.value.requirements.plugin) && fresh(res.value.requirements.composer)
        && res.value.requirements.php.Items() == [] && res.value.requirements.tool.Items() == []
        && res.value.requirements.plugin.Items() == [] && res.value.requirements.composer.Items() == []
    {
      if apiVersion != SupportedApiVersion {
        return Err(InvalidApiVersion(apiVersion));
      }
      var bundle: PluginRequirements;
      if requirements == null {
        bundle := new PluginRequirements();
      } else {
        bundle := requirements;
      }
      var v := new PluginVersion.Init(name, version, apiVersion, bundle, filePath, signaturePath, hash, kind);
      return Ok(v);
    }

    /** A php-file plugin version, as the loader builds it: the common fields only. */
    static method CreatePhpFile(name: string, version: string, apiVersion: string, requirements: PluginRequirements?,
                                filePath: string, signaturePath: Option<string>, hash: Hash)
      returns (res: Result<PluginVersion, Error>)
      requires requirements != null ==> requirements.Valid()
      ensures res.Err? <==> apiVersion != SupportedApiVersion
      ensures res.Err? ==> res.error == InvalidApiVersion(apiVersion)
      ensures res.Ok? ==>
        && fresh(res.value) && res.value.Valid()
        && res.value.name == name && res.value.version == version
        && res.value.filePath == filePath && res.value.signaturePath == signaturePath
        && res.value.hash == hash && res.value.kind == PhpFile
      ensures res.Ok? && requirements != null ==> res.value.requirements == requirements
      ensures res.Ok? && requirements == null ==>
        && fresh(res.value.requirements)
        && fresh(res.value.requirements.php) && fresh(res.value.requirements.tool)
        && fresh(res.value.requirements.plugin) && fresh(res.value.requirements.composer)
    {
      res := Construct(name, version, apiVersion, requirements, filePath, signaturePath, hash, PhpFile);
    }

    /**
     * `new PharFilePluginVersion(...)`: the common fields passed through unchanged
     * (the file path is not swapped with the plugin path), plus the plugin path;
     * the api version is still checked.
     */
    static method CreatePharFile(name: string, version: string, apiVersion: string, requirements: PluginRequirements?,
                                 filePath: string, pluginPath: string, signaturePath: Option<string>, hash: Hash)
      returns (res: Result<PluginVersion, Error>)
      requires requirements != null ==> requirements.Valid()
      ensures res.Err? <==> apiVersion != SupportedApiVersion
      ensures res.Err? ==> res.error == InvalidApiVersion(apiVersion)
      ensures res.Ok? ==>
        && fresh(res.value) && res.value.Valid()
        && res.value.name == name && res.value.version == version
        && res.value.filePath == filePath && res.value.signaturePath == signaturePath
        && res.value.hash == hash && res.value.kind == PharFile(pluginPath)
        && res.value.GetPluginPath() == pluginPath
      ensures res.Ok? && requirements != null ==> res.value.requirements == requirements
    {
      res := Construct(name, version, apiVersion, requirements, filePath, signaturePath, hash, PharFile(pluginPath));
    }

    /** `getApiVersion()` returns the literal "1.0.0", which is the stored api version. */
    function GetApiVersion(): (v: string)
      requires Supported()
      ensures v == apiVersion
    {
      "1.0.0"
    }

    /** `getPluginPath()` of a phar-file version. */
    function GetPluginPath(): string
      requires kind.PharFile?
    {
      kind.pluginPath
    }

    /** The record's current contents. */
    function Snapshot(): PluginRecord
      reads requirements.php, requirements.tool, requirements.plugin, requirements.composer
    {
      PluginRecord(name, version, apiVersion, hash, filePath, signaturePath, kind,
                   requirements.php.entries, requirements.tool.entries,
                   requirements.plugin.entries, requirements.composer.entries)
    }

    /**
     * `merge`: each of the four requirement lists gains the other record's entries
     * whose names it lacks and keeps every entry it had; no conflict is reported and
     * nothing but the requirement lists changes.
     */
    method Merge(other: PluginVersion)
      requires Valid() && other.Valid()
      requires PluginMergeable(requirements, other.requirements)
      modifies requirements.php, requirements.tool, requirements.plugin, requirements.composer
      ensures Valid()
      ensures requirements.php.entries
           == Union(old(requirements.php.entries), old(other.requirements.php.Items()))
      ensures requirements.tool.entries
           == Union(old(requirements.tool.entries), old(other.requirements.tool.Items()))
      ensures requirements.plugin.entries
           == Union(old(requirements.plugin.entries), old(other.requirements.plugin.Items()))
      ensures requirements.composer.entries
           == Union(old(requirements.composer.entries), old(other.requirements.composer.Items()))
    {
      MergeList(requirements.php, other.requirements.php);
      MergeList(requirements.tool, other.requirements.tool);
      MergeList(requirements.plugin, other.requirements.plugin);
      MergeList(requirements.composer, other.requirements.composer);
    }
  }
}
