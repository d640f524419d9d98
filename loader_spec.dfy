/**
 * The manifest walk as a function of its inputs: what `RepositoryLoader` has
 * collected after reading a file, described on record values. A tool (plugin)
 * aggregate is its version-keyed map of records; the collected state is two
 * name-keyed maps of aggregates, in first-sight order.
 */
module LoaderSpec {
  import opened Wrappers
  import opened Errors
  import opened OrderedMaps
  import opened Hashes
  import opened Requirements
  import opened ToolVersions
  import opened PluginVersions
  import opened Manifests
  import opened Locations

  type ToolAggregate = OrderedMap<string, ToolRecord>
  type PluginAggregate = OrderedMap<string, PluginRecord>
  type ToolsState = OrderedMap<string, ToolAggregate>
  type PluginsState = OrderedMap<string, PluginAggregate>

  datatype LoadState = LoadState(tools: ToolsState, plugins: PluginsState)

  /** The requirement lists of a tool version, as loaded. */
  datatype ToolLists = ToolLists(php: RequirementMap, composer: RequirementMap)

  /** The requirement lists of a plugin version, as loaded. */
  datatype PluginLists = PluginLists(php: RequirementMap, tool: RequirementMap,
                                     plugin: RequirementMap, composer: RequirementMap)

  // ----- Requirements -----

  /** One `new VersionRequirement($name, $version)` per entry, in document order. */
  function RequirementsOf(pairs: Option<Pairs>): (r: seq<VersionRequirement>)
    ensures pairs.None? ==> r == []
    ensures pairs.Some? ==> |r| == |pairs.value|
    ensures pairs.Some? ==> forall i :: 0 <= i < |r| ==>
      r[i].name == pairs.value[i].0 && r[i].constraint == pairs.value[i].1
  {
    if pairs.None? then []
    else seq(|pairs.value|, i requires 0 <= i < |pairs.value| => NewRequirement(pairs.value[i].0, pairs.value[i].1))
  }

  /** A fresh list after adding each entry in turn. */
  function LoadedList(pairs: Option<Pairs>): (r: Result<RequirementMap, Error>)
    ensures r.Ok? ==> WellKeyed(r.value)
  {
    AddAll(Empty(), RequirementsOf(pairs))
  }

  /** `empty($requirements)`: absent, or with none of the categories present. */
  predicate NoToolRequirements(d: Option<ToolRequirementsData>) {
    d.None? || (d.value.php.None? && d.value.composer.None?)
  }

  predicate NoPluginRequirements(d: Option<PluginRequirementsData>) {
    d.None? || (d.value.php.None? && d.value.tool.None? && d.value.plugin.None? && d.value.composer.None?)
  }

  /** `loadToolRequirements`: the php list, then the composer list. */
  function ToolRequirementsLoaded(d: Option<ToolRequirementsData>): (r: Result<ToolLists, Error>)
    ensures NoToolRequirements(d) ==> r == Ok(ToolLists(Empty(), Empty()))
  {
    if NoToolRequirements(d) then Ok(ToolLists(Empty(), Empty()))
    else
      var php :- LoadedList(d.value.php);
      var composer :- LoadedList(d.value.composer);
      Ok(ToolLists(php, composer))
  }

  /** `loadPluginRequirements`: php, tool, plugin, then composer. */
  function PluginRequirementsLoaded(d: Option<PluginRequirementsData>): (r: Result<PluginLists, Error>)
    ensures NoPluginRequirements(d) ==> r == Ok(PluginLists(Empty(), Empty(), Empty(), Empty()))
  {
    if NoPluginRequirements(d) then Ok(PluginLists(Empty(), Empty(), Empty(), Empty()))
    else
      var php :- LoadedList(d.value.php);
      var tool :- LoadedList(d.value.tool);
      var plugin :- LoadedList(d.value.plugin);
      var composer :- LoadedList(d.value.composer);
      Ok(PluginLists(php, tool, plugin, composer))
  }

  /** No requirement name occurs twice in the object (as JSON decoding guarantees). */
  ghost predicate PairNamesDistinct(pairs: Option<Pairs>) {
    pairs.Some? ==> forall i, j :: 0 <= i < j < |pairs.value| ==> pairs.value[i].0 != pairs.value[j].0
  }

  /** A category with distinct names loads into a list holding exactly its entries, in order. */
  lemma LoadedListKeepsEntries(pairs: Option<Pairs>)
    requires PairNamesDistinct(pairs)
    ensures LoadedList(pairs).Ok?
    ensures LoadedList(pairs).value.Values() == RequirementsOf(pairs)
  {
    var reqs := RequirementsOf(pairs);
    assert NamesDistinct(reqs);
    AddAllDistinctNames(Empty(), reqs);
  }

  /**
   * Tool requirements with distinct names per category never fail to load, and
   * each entry becomes one requirement of the matching list.
   */
  lemma ToolRequirementsKeepEntries(d: Option<ToolRequirementsData>)
    requires d.Some? ==> PairNamesDistinct(d.value.php) && PairNamesDistinct(d.value.composer)
    ensures ToolRequirementsLoaded(d).Ok?
    ensures d.Some? ==> ToolRequirementsLoaded(d).value.php.Values() == RequirementsOf(d.value.php)
    ensures d.Some? ==> ToolRequirementsLoaded(d).value.composer.Values() == RequirementsOf(d.value.composer)
  {
    if d.Some? {
      LoadedListKeepsEntries(d.value.php);
      LoadedListKeepsEntries(d.value.composer);
    }
  }

  /** The same for the four plugin categories. */
  lemma PluginRequirementsKeepEntries(d: Option<PluginRequirementsData>)
    requires d.Some? ==> PairNamesDistinct(d.value.php) && PairNamesDistinct(d.value.tool)
    requires d.Some? ==> PairNamesDistinct(d.value.plugin) && PairNamesDistinct(d.value.composer)
    ensures PluginRequirementsLoaded(d).Ok?
    ensures d.Some? ==> PluginRequirementsLoaded(d).value.php.Values() == RequirementsOf(d.value.php)
    ensures d.Some? ==> PluginRequirementsLoaded(d).value.tool.Values() == RequirementsOf(d.value.tool)
    ensures d.Some? ==> PluginRequirementsLoaded(d).value.plugin.Values() == RequirementsOf(d.value.plugin)
    ensures d.Some? ==> PluginRequirementsLoaded(d).value.composer.Values() == RequirementsOf(d.value.composer)
  {
    if d.Some? {
      LoadedListKeepsEntries(d.value.php);
      LoadedListKeepsEntries(d.value.tool);
      LoadedListKeepsEntries(d.value.plugin);
      LoadedListKeepsEntries(d.value.composer);
    }
  }

  // ----- Hashes and optional locations -----

  /** `loadToolHash`: no checksum gives no hash; otherwise the hash it names. */
  function ToolHashLoaded(c: Option<Checksum>): (r: Result<Option<Hash>, Error>)
    ensures c.None? ==> r == Ok(None)
    ensures c.Some? ==> (r.Ok? <==> Create(c.value.hashType, c.value.value).Ok?)
    ensures c.Some? && r.Ok? ==>
      r.value.Some? && r.value.value.GetType() == c.value.hashType && r.value.value.GetValue() == c.value.value
    ensures r.Err? ==> r.error == InvalidHash(c.value.hashType, c.value.value)
  {
    if c.None? then Ok(None)
    else
      var h :- Create(c.value.hashType, c.value.value);
      Ok(Some(h))
  }

  /** `loadPluginHash`: the hash the checksum names. */
  function PluginHashLoaded(c: Checksum): (r: Result<Hash, Error>)
    ensures r.Ok? <==> Create(c.hashType, c.value).Ok?
    ensures r.Ok? ==> r.value.GetType() == c.hashType && r.value.GetValue() == c.value
    ensures r.Err? ==> r.error == InvalidHash(c.hashType, c.value)
  {
    Create(c.hashType, c.value)
  }

  /** A signature location, resolved when present. */
  function OptionalLocation(env: Environment, loc: Option<string>, baseDir: string): (r: Result<Option<string>, Error>)
    ensures loc.None? ==> r == Ok(None)
    ensures loc.Some? ==> (r.Ok? <==> ValidateUrlOrFile(env, loc.value, baseDir).Ok?)
    ensures loc.Some? && r.Ok? ==> r.value == Some(ValidateUrlOrFile(env, loc.value, baseDir).value)
    ensures loc.Some? && r.Err? ==> r == Err(ValidateUrlOrFile(env, loc.value, baseDir).error)
    ensures loc.Some? && r.Ok? ==> r.value.Some? && (env.isFile(r.value.value) || env.isValidUrl(r.value.value))
  {
    if loc.None? then Ok(None)
    else
      var l :- ValidateUrlOrFile(env, loc.value, baseDir);
      Ok(Some(l))
  }

  // ----- Version records -----

  /**
   * The record one tool version entry yields, the arguments evaluated as PHP
   * evaluates them: the url, the requirements, the hash, the signature.
   */
  function BuildToolRecord(env: Environment, toolName: string, e: ToolEntry, baseDir: string): (r: Result<ToolRecord, Error>)
    ensures r.Ok? ==> r.value.name == toolName && r.value.version == e.version
  {
    var url :- ValidateUrlOrFile(env, e.url, baseDir);
    var lists :- ToolRequirementsLoaded(e.requirements);
    var hash :- ToolHashLoaded(e.checksum);
    var sig :- OptionalLocation(env, e.signature, baseDir);
    Ok(ToolRecord(toolName, e.version, Some(url), hash, sig, lists.php, lists.composer))
  }

  /**
   * `loadPluginVersion`: only "php-file" builds a version, and it needs a url;
   * the constructor's arguments (requirements, file, signature, hash) are
   * evaluated before its api-version check.
   */
  function BuildPluginRecord(env: Environment, name: string, e: PluginEntry, baseDir: string): (r: Result<PluginRecord, Error>)
    ensures r.Ok? ==> r.value.name == name && r.value.version == e.version
  {
    if e.pluginType != "php-file" then Err(UnexpectedPluginType(e.pluginType))
    else if e.url.None? then Err(MissingPluginUrl(name))
    else
      var lists :- PluginRequirementsLoaded(e.requirements);
      var file :- ValidateUrlOrFile(env, e.url.value, baseDir);
      var sig :- OptionalLocation(env, e.signature, baseDir);
      var hash :- PluginHashLoaded(e.checksum);
      if e.apiVersion != SupportedApiVersion then Err(InvalidApiVersion(e.apiVersion))
      else Ok(PluginRecord(name, e.version, e.apiVersion, hash, file, sig, PhpFile,
                           lists.php, lists.tool, lists.plugin, lists.composer))
  }

  /**
   * A built tool record holds the resolved location of the phar (an existing
   * file or a valid URL); a signature exactly when the entry has one, resolved
   * as the phar is; a hash exactly when the entry has a checksum, with its type
   * and value. An unresolvable url fails the entry with that url's error.
   */
  lemma BuildToolRecordResolves(env: Environment, toolName: string, e: ToolEntry, baseDir: string)
    ensures var r := BuildToolRecord(env, toolName, e, baseDir);
      && (r.Ok? ==> r.value.pharUrl.Some? && ValidateUrlOrFile(env, e.url, baseDir) == Ok(r.value.pharUrl.value))
      && (r.Ok? ==> env.isFile(r.value.pharUrl.value) || env.isValidUrl(r.value.pharUrl.value))
      && (r.Ok? ==> (r.value.signatureUrl.Some? <==> e.signature.Some?))
      && (r.Ok? && e.signature.Some? ==> ValidateUrlOrFile(env, e.signature.value, baseDir) == Ok(r.value.signatureUrl.value))
      && (r.Ok? && e.signature.Some? ==> env.isFile(r.value.signatureUrl.value) || env.isValidUrl(r.value.signatureUrl.value))
      && (r.Ok? ==> (r.value.hash.Some? <==> e.checksum.Some?))
      && (r.Ok? && e.checksum.Some? ==>
            r.value.hash.value.GetType() == e.checksum.value.hashType && r.value.hash.value.GetValue() == e.checksum.value.value)
      && (ValidateUrlOrFile(env, e.url, baseDir).Err? ==> r == Err(ValidateUrlOrFile(env, e.url, baseDir).error))
  {
  }

  /**
   * Only a "php-file" entry with a url and the supported api version builds a
   * record, and that record is a php-file version at the resolved file path,
   * with a signature exactly when the entry has one, resolved as the file is,
   * and the hash of the entry's checksum.
   */
  lemma BuildPluginRecordPhpFileOnly(env: Environment, name: string, e: PluginEntry, baseDir: string)
    ensures var r := BuildPluginRecord(env, name, e, baseDir);
      && (e.pluginType != "php-file" ==> r == Err(UnexpectedPluginType(e.pluginType)))
      && (e.pluginType == "php-file" && e.url.None? ==> r == Err(MissingPluginUrl(name)))
      && (r.Ok? ==> e.pluginType == "php-file" && r.value.kind == PhpFile)
      && (r.Ok? ==> e.apiVersion == SupportedApiVersion && r.value.apiVersion == e.apiVersion)
      && (r.Ok? ==> ValidateUrlOrFile(env, e.url.value, baseDir) == Ok(r.value.filePath))
      && (r.Ok? ==> (r.value.signaturePath.Some? <==> e.signature.Some?))
      && (r.Ok? && e.signature.Some? ==> ValidateUrlOrFile(env, e.signature.value, baseDir) == Ok(r.value.signaturePath.value))
      && (r.Ok? && e.signature.Some? ==> env.isFile(r.value.signaturePath.value) || env.isValidUrl(r.value.signaturePath.value))
      && (r.Ok? ==> r.value.hash.GetType() == e.checksum.hashType && r.value.hash.GetValue() == e.checksum.value)
      && (e.pluginType == "php-file" && e.url.Some? && PluginHashLoaded(e.checksum).Err? ==> r.Err?)
  {
  }

  // ----- Walking tools -----

  /** Each entry's record (or the error building it), in document order. */
  function BuildToolRecords(env: Environment, name: string, entries: seq<ToolEntry>, baseDir: string)
    : (r: seq<Result<ToolRecord, Error>>)
    ensures |r| == |entries|
    ensures forall i :: 0 <= i < |entries| ==> r[i] == BuildToolRecord(env, name, entries[i], baseDir)
  {
    seq(|entries|, i requires 0 <= i < |entries| => BuildToolRecord(env, name, entries[i], baseDir))
  }

  /**
   * The collected aggregates after adding each built record in turn: the first
   * record that failed to build, or whose version the aggregate already holds,
   * stops the walk with its error.
   */
  function AddToolVersions(tools: ToolsState, name: string, built: seq<Result<ToolRecord, Error>>)
    : Result<ToolsState, Error>
    requires name in tools.table
    decreases |built|
  {
    if built == [] then Ok(tools)
    else
      var rec :- built[0];
      var agg := tools.table[name];
      if rec.version in agg.table then Err(VersionAlreadyAdded(rec.version))
      else AddToolVersions(tools.Put(name, agg.Put(rec.version, rec)), name, built[1..])
  }

  /** One step of that walk: the record's build error, the duplicate-version error, or the record appended. */
  function AddToolRecord(tools: ToolsState, name: string, b: Result<ToolRecord, Error>): (r: Result<ToolsState, Error>)
    requires name in tools.table
    ensures b.Err? ==> r == Err(b.error)
    ensures b.Ok? ==> (r.Err? <==> b.value.version in tools.table[name].table)
    ensures b.Ok? && r.Err? ==> r.error == VersionAlreadyAdded(b.value.version)
    ensures r.Ok? ==>
      && b.Ok? && name in r.value.table && r.value.keys == tools.keys
      && r.value.table[name].keys == tools.table[name].keys + [b.value.version]
      && r.value.table[name].table == tools.table[name].table[b.value.version := b.value]
      && (forall n :: n in tools.table <==> n in r.value.table)
      && (forall n :: n in tools.table && n != name ==> r.value.table[n] == tools.table[n])
  {
    var rec :- b;
    var agg := tools.table[name];
    if rec.version in agg.table then Err(VersionAlreadyAdded(rec.version))
    else Ok(tools.Put(name, agg.Put(rec.version, rec)))
  }

  lemma AddToolVersionsStep(tools: ToolsState, name: string, built: seq<Result<ToolRecord, Error>>)
    requires name in tools.table && built != []
    ensures AddToolVersions(tools, name, built)
         == if AddToolRecord(tools, name, built[0]).Err? then Err(AddToolRecord(tools, name, built[0]).error)
            else AddToolVersions(AddToolRecord(tools, name, built[0]).value, name, built[1..])
  {
  }

  /** `walkToolVersions`: the aggregate is created on first sight of the name, then filled. */
  function WalkToolVersions(env: Environment, tools: ToolsState, name: string, entries: seq<ToolEntry>, baseDir: string)
    : Result<ToolsState, Error>
  {
    AddToolVersions(if name in tools.table then tools else tools.Put(name, Empty()), name,
                    BuildToolRecords(env, name, entries, baseDir))
  }

  /** `walkTools`. */
  function WalkTools(env: Environment, tools: ToolsState, list: seq<(string, seq<ToolEntry>)>, baseDir: string)
    : Result<ToolsState, Error>
    decreases |list|
  {
    if list == [] then Ok(tools)
    else
      var next :- WalkToolVersions(env, tools, list[0].0, list[0].1, baseDir);
      WalkTools(env, next, list[1..], baseDir)
  }

  lemma WalkToolsStep(env: Environment, tools: ToolsState, list: seq<(string, seq<ToolEntry>)>, baseDir: string)
    requires list != []
    ensures WalkTools(env, tools, list, baseDir)
         == var first := WalkToolVersions(env, tools, list[0].0, list[0].1, baseDir);
            if first.Err? then Err(first.error) else WalkTools(env, first.value, list[1..], baseDir)
  {
  }

  // ----- Walking plugins -----

  function BuildPluginRecords(env: Environment, name: string, entries: seq<PluginEntry>, baseDir: string)
    : (r: seq<Result<PluginRecord, Error>>)
    ensures |r| == |entries|
    ensures forall i :: 0 <= i < |entries| ==> r[i] == BuildPluginRecord(env, name, entries[i], baseDir)
  {
    seq(|entries|, i requires 0 <= i < |entries| => BuildPluginRecord(env, name, entries[i], baseDir))
  }

  function AddPluginVersions(plugins: PluginsState, name: string, built: seq<Result<PluginRecord, Error>>)
    : Result<PluginsState, Error>
    requires name in plugins.table
    decreases |built|
  {
    if built == [] then Ok(plugins)
    else
      var rec :- built[0];
      var agg := plugins.table[name];
      if rec.version in agg.table then Err(VersionAlreadyAdded(rec.version))
      else AddPluginVersions(plugins.Put(name, agg.Put(rec.version, rec)), name, built[1..])
  }

  /** One step of the plugin walk: the build error, the duplicate-version error, or the record appended. */
  function AddPluginRecord(plugins: PluginsState, name: string, b: Result<PluginRecord, Error>): (r: Result<PluginsState, Error>)
    requires name in plugins.table
    ensures b.Err? ==> r == Err(b.error)
    ensures b.Ok? ==> (r.Err? <==> b.value.version in plugins.table[name].table)
    ensures b.Ok? && r.Err? ==> r.error == VersionAlreadyAdded(b.value.version)
    ensures r.Ok? ==>
      && b.Ok? && name in r.value.table && r.value.keys == plugins.keys
      && r.value.table[name].keys == plugins.table[name].keys + [b.value.version]
      && r.value.table[name].table == plugins.table[name].table[b.value.version := b.value]
      && (forall n :: n in plugins.table <==> n in r.value.table)
      && (forall n :: n in plugins.table && n != name ==> r.value.table[n] == plugins.table[n])
  {
    var rec :- b;
    var agg := plugins.table[name];
    if rec.version in agg.table then Err(VersionAlreadyAdded(rec.version))
    else Ok(plugins.Put(name, agg.Put(rec.version, rec)))
  }

  lemma AddPluginVersionsStep(plugins: PluginsState, name: string, built: seq<Result<PluginRecord, Error>>)
    requires name in plugins.table && built != []
    ensures AddPluginVersions(plugins, name, built)
         == if AddPluginRecord(plugins, name, built[0]).Err? then Err(AddPluginRecord(plugins, name, built[0]).error)
            else AddPluginVersions(AddPluginRecord(plugins, name, built[0]).value, name, built[1..])
  {
  }

  /** `walkPluginVersions`. */
  function WalkPluginVersions(env: Environment, plugins: PluginsState, name: string, entries: seq<PluginEntry>, baseDir: string)
    : Result<PluginsState, Error>
  {
    AddPluginVersions(if name in plugins.table then plugins else plugins.Put(name, Empty()), name,
                      BuildPluginRecords(env, name, entries, baseDir))
  }

  /** `walkPlugins`. */
  function WalkPlugins(env: Environment, plugins: PluginsState, list: seq<(string, seq<PluginEntry>)>, baseDir: string)
    : Result<PluginsState, Error>
    decreases |list|
  {
    if list == [] then Ok(plugins)
    else
      var next :- WalkPluginVersions(env, plugins, list[0].0, list[0].1, baseDir);
      WalkPlugins(env, next, list[1..], baseDir)
  }

  lemma WalkPluginsStep(env: Environment, plugins: PluginsState, list: seq<(string, seq<PluginEntry>)>, baseDir: string)
    requires list != []
    ensures WalkPlugins(env, plugins, list, baseDir)
         == var first := WalkPluginVersions(env, plugins, list[0].0, list[0].1, baseDir);
            if first.Err? then Err(first.error) else WalkPlugins(env, first.value, list[1..], baseDir)
  {
  }

  // ----- Reading files -----

  /** The tool walk, then the plugin walk, of one file's contents, each only when present. */
  function WalkSections(env: Environment, st: LoadState, contents: Manifest, baseDir: string): Result<LoadState, Error> {
    var tools :- if contents.tools.Some? then WalkTools(env, st.tools, contents.tools.value, baseDir) else Ok(st.tools);
    var plugins :- if contents.plugins.Some? then WalkPlugins(env, st.plugins, contents.plugins.value, baseDir) else Ok(st.plugins);
    Ok(LoadState(tools, plugins))
  }

  /**
   * `readFile`: load the file, then walk what it holds relative to the file's
   * directory. `fuel` bounds the include depth.
   */
  function ReadFile(env: Environment, fuel: nat, st: LoadState, file: string, checksum: Option<Checksum>)
    : Result<LoadState, Error>
    decreases fuel, 1
  {
    if fuel == 0 then Err(IncludeDepthExceeded(file))
    else
      var contents :- env.load(file, checksum);
      WalkContents(env, fuel - 1, st, contents, env.dirname(file))
  }

  lemma ReadFileStep(env: Environment, fuel: nat, st: LoadState, file: string, checksum: Option<Checksum>)
    requires fuel > 0 && env.load(file, checksum).Ok?
    ensures ReadFile(env, fuel, st, file, checksum)
         == WalkContents(env, fuel - 1, st, env.load(file, checksum).value, env.dirname(file))
  {
  }

  /**
   * The rest of `readFile`: the tools, the plugins and the includes of one
   * loaded file, each only when present; `fuel` is the depth left for includes.
   */
  function WalkContents(env: Environment, fuel: nat, st: LoadState, contents: Manifest, baseDir: string)
    : Result<LoadState, Error>
    decreases fuel, 4
  {
    var walked :- WalkSections(env, st, contents, baseDir);
    if contents.includes.Some? then WalkIncludeFiles(env, fuel, walked, contents.includes.value, baseDir)
    else Ok(walked)
  }

  lemma WalkContentsStep(env: Environment, fuel: nat, st: LoadState, contents: Manifest, baseDir: string)
    ensures WalkContents(env, fuel, st, contents, baseDir)
         == var walked := WalkSections(env, st, contents, baseDir);
            if walked.Err? then Err(walked.error)
            else if contents.includes.Some? then WalkIncludeFiles(env, fuel, walked.value, contents.includes.value, baseDir)
            else Ok(walked.value)
  {
  }

  /** The body of the `walkIncludeFiles` loop: the include's location resolved, then the file it names read. */
  function ReadInclude(env: Environment, fuel: nat, st: LoadState, entry: IncludeEntry, baseDir: string)
    : Result<LoadState, Error>
    decreases fuel, 2
  {
    var url :- ValidateUrlOrFile(env, entry.url, baseDir);
    ReadFile(env, fuel, st, url, entry.checksum)
  }

  /** `walkIncludeFiles`: each include read, in order, into the same state. */
  function WalkIncludeFiles(env: Environment, fuel: nat, st: LoadState, includes: seq<IncludeEntry>, baseDir: string)
    : Result<LoadState, Error>
    decreases fuel, 3, |includes|
  {
    if includes == [] then Ok(st)
    else
      var next :- ReadInclude(env, fuel, st, includes[0], baseDir);
      WalkIncludeFiles(env, fuel, next, includes[1..], baseDir)
  }

  lemma WalkIncludeFilesStep(env: Environment, fuel: nat, st: LoadState, includes: seq<IncludeEntry>, baseDir: string)
    requires includes != []
    ensures WalkIncludeFiles(env, fuel, st, includes, baseDir)
         == var next := ReadInclude(env, fuel, st, includes[0], baseDir);
            if next.Err? then Err(next.error) else WalkIncludeFiles(env, fuel, next.value, includes[1..], baseDir)
  {
  }

  /** An empty collection: the state `loadData` starts from. */
  function Initial(): (st: LoadState)
    ensures st.tools.Valid() && st.plugins.Valid() && st.tools.table == map[] && st.plugins.table == map[]
  {
    LoadState(Empty(), Empty())
  }

  /** `loadData`: the collected state, or nothing when no tool and no plugin was seen. */
  function LoadData(env: Environment, fuel: nat, file: string, checksum: Option<Checksum>)
    : (r: Result<Option<LoadState>, Error>)
    ensures r.Ok? ==> ReadFile(env, fuel, Initial(), file, checksum).Ok?
    ensures r.Ok? ==> (r.value.None? <==>
      ReadFile(env, fuel, Initial(), file, checksum).value.tools.keys == [] &&
      ReadFile(env, fuel, Initial(), file, checksum).value.plugins.keys == [])
    ensures r.Ok? && r.value.Some? ==> r.value.value == ReadFile(env, fuel, Initial(), file, checksum).value
    ensures r.Err? ==> ReadFile(env, fuel, Initial(), file, checksum) == Err(r.error)
  {
    var st :- ReadFile(env, fuel, Initial(), file, checksum);
    if st.tools.keys == [] && st.plugins.keys == [] then Ok(None) else Ok(Some(st))
  }
}
