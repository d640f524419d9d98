# phpcq repository definition, modelled in Dafny

This project models the in-memory repository definition of phpcq and the
loader that fills it from JSON manifests.

The in-memory part has these pieces:

- Version requirements, an immutable name and constraint pair, and their
  name-keyed, insertion-ordered lists.
- The requirement bundles of tool and plugin versions.
- The tool version and plugin version records and their `merge`.
- The `Tool` and `Plugin` aggregates: a name plus the versions keyed by
  version string.
- The `Repository`: two name-keyed maps, one of tools and one of plugins.

The loader reads a manifest through a JSON file loader. It walks the
manifest's tools, then its plugins, then its includes, and collects
everything into two maps that every file adds to. It resolves every location
it meets with `validateUrlOrFile`.

Layout, one module per file:

- `OrderedMaps` (ordered_map.dfy): the shape of a PHP array with string keys.
  Keys come in insertion order. Assigning to an existing key keeps its
  position; assigning to a new key appends it.
- `Hashes`: the tool and plugin hash values.
- `Errors` and `Wrappers`: every exception of the source becomes an `Error`
  constructor. An operation that can throw returns a `Result` or an
  `Outcome`.
- `Requirements`: `VersionRequirement` (a datatype) and
  `VersionRequirementList` (a class).
  - The list's contents are a value, `RequirementMap`.
  - The functions `Added`, `AddAll` and `Union` describe `add`, the
    constructor and `merge`'s requirement loop on that value.
  - The methods are proved against those functions.
- `Bundles`: `ToolRequirements` and `PluginRequirements`, classes holding
  list objects.
- `ToolVersions`, `PluginVersions`, `Tools`, `Plugins`, `Repositories`: the
  records and aggregates as classes. Their fields are updated in place as in
  the source.
- `Manifests`: a decoded manifest and the `Environment`. The `Environment`
  gathers the JSON file loader, `is_file`, `parse_url(..., PHP_URL_PATH)`,
  `urlencode`, `filter_var(..., FILTER_VALIDATE_URL)` and `dirname`. Each is
  given as a function.
- `Locations`: `validateUrlOrFile` and the string operations it uses.
- `LoaderSpec`: the whole walk as functions over record values. An
  aggregate is a version-keyed map of records. The collected state is two
  name-keyed maps of aggregates.
- `LoaderProperties`: what the walk guarantees:
  - collected aggregates only grow;
  - names and versions appear in first-sight order;
  - a repeated version aborts;
  - giving more include depth than needed changes nothing.
- `Loaders`: the `RepositoryLoader` class.
  - Its fields are the two maps of `Tool` and `Plugin` objects.
  - Every method is proved equal to the matching `LoaderSpec` function,
    applied to `State()`, the records view of what the loader has collected.

Differences between the code and its tests:

- The loader builds a php-file plugin version with the constructor of the
  common base class (src/RepositoryLoader.php:258-268). The php-file plugin
  version tests pass a different argument list. The model follows the
  loader: a php-file version has exactly the common fields.
- The source has no cycle detection for includes and recurses without bound.
  The model bounds the include depth with `fuel`. Reaching the bound is the
  model's own error, `IncludeDepthExceeded`.

## Model

| member | source | states |
|---|---|---|
| Requirements.NewRequirement | src/VersionRequirement.php:21-25 | the requirement holds the given name and constraint; the constraint defaults to "*" |
| Requirements.AddedFailsOnConflict | src/VersionRequirementList.php:36-39 | `add` fails exactly when the name is stored with a different constraint, and reports "already added" for that name |
| Requirements.AddedSameIsNoOp | src/VersionRequirementList.php:37-41 | re-adding the constraint already stored succeeds and leaves contents, count and order as they were |
| Requirements.AddedNewAppends | src/VersionRequirementList.php:41 | a new name succeeds and is appended at the end of the iteration order |
| Requirements.AddedStoresOnlyIt | src/VersionRequirementList.php:41-56 | after a successful `add`, `get(name)` is the requirement, and every other name is present and stored as before |
| Requirements.Added | src/VersionRequirementList.php:34-42 | every requirement stays stored under its own name |
| Requirements.AddAll | src/VersionRequirementList.php:27-32 | the constructor loop keeps every requirement under its own name |
| Requirements.AddAllDistinctNames | src/VersionRequirementList.php:27-32 | with pairwise distinct names, construction never fails and iterates the requirements in the order given |
| Requirements.Union | src/Tool/ToolVersion.php:110-117 | the merge loop keeps every requirement under its own name |
| Requirements.UnionAppendsMissing | src/Tool/ToolVersion.php:110-117 | after merge, a list iterates as its old entries followed by exactly the other list's entries whose names it lacked, in the other list's order |
| Requirements.UnionKeepsExisting | src/Tool/ToolVersion.php:111-116 | merge never overwrites: every entry the receiver had is kept unchanged |
| Requirements.UnionCoversSource | src/Tool/ToolVersion.php:110-117 | after merge, every name of the other list is present |
| Requirements.UnionOfPresentIsIdentity | src/Tool/ToolVersion.php:111 | merging a list whose names are all present, the list itself included, changes nothing |
| Requirements.VersionRequirementList.constructor | src/VersionRequirementList.php:20-32 | a list built with no requirements is empty |
| Requirements.VersionRequirementList.Create | src/VersionRequirementList.php:27-32 | the constructor is successive `add` calls: on success it holds what `AddAll` gives, and otherwise it fails with `AddAll`'s error |
| Requirements.VersionRequirementList.Add | src/VersionRequirementList.php:34-42 | the new contents are `Added` of the old ones; on failure the list is unchanged |
| Requirements.VersionRequirementList.Get | src/VersionRequirementList.php:44-51 | succeeds exactly when the name is present; gives a stored requirement of that name, or "Requirement not added" for the name |
| Requirements.VersionRequirementList.Count | src/VersionRequirementList.php:58-61 | the number of distinct names stored, which is the number of items iterated |
| Requirements.VersionRequirementList.Items | src/VersionRequirementList.php:66-71 | every entry once, in key order, with no name twice |
| Requirements.VersionRequirementList.Clone | src/VersionRequirementList.php:73-78 | a fresh list object with the same contents |
| Requirements.MergeList | src/Tool/ToolVersion.php:108-117 | the target list becomes the `Union` of its old contents with the source's items; the loop never fails |
| OrderedMaps.PutNewAppends | src/Tool/Tool.php:61 | storing under a new key appends the key and the value in iteration order |
| OrderedMaps.PutExistingInPlace | src/VersionRequirementList.php:41 | storing under a present key keeps the order and replaces only that value; storing the same value changes nothing |
| OrderedMaps.OrderedMap.Size | src/VersionRequirementList.php:58-61 | the number of keys in the table |
| Hashes.Create | tests/Tool/ToolHashTest.php:29-43 | succeeds exactly for the four algorithm tags, and then keeps type and value; an unknown tag is an invalid-hash error naming type and value |
| Hashes.CreateRoundTrip | tests/Tool/ToolHashTest.php:29-35 | re-creating a hash from its own type and value gives the same hash |
| Hashes.EqualsSymmetricAndStructural | tests/Tool/ToolHashTest.php:75-87 | `equals` is symmetric and holds exactly when type and value both match |
| Hashes.ParseAlgorithm | tests/Tool/ToolHashTest.php:16-24 | a tag names an algorithm exactly when it is that algorithm's tag |
| Bundles.ToolRequirements.constructor | src/Tool/ToolRequirements.php:28-32 | two fresh, distinct, empty lists, php and composer |
| Bundles.PluginRequirements.constructor | src/Plugin/PluginRequirements.php:42-48 | four fresh, pairwise distinct, empty lists |
| Bundles.PluginRequirements.Clone | src/Plugin/PluginRequirements.php:82-88 | a fresh bundle whose four lists are fresh copies with the same contents, so changing the copy never touches the original |
| ToolVersions.MergedUrl | src/Tool/ToolVersion.php:84-89 | after merge, a url field is the other record's value when that is non-null, else the receiver's |
| ToolVersions.MergedHash | src/Tool/ToolVersion.php:90-98 | after merge, the hash is the other record's (same type and value) when that is non-null, else the receiver's |
| ToolVersions.ToolVersion.constructor | src/Tool/ToolVersion.php:25-39 | stores every argument as given; no requirements gives a fresh bundle with empty lists |
| ToolVersions.ToolVersion.Merge | src/Tool/ToolVersion.php:82-119 | pharUrl, signatureUrl and hash as `MergedUrl`/`MergedHash` say; each list becomes its `Union` with the other's; name, version and the other record unchanged; never fails |
| PluginVersions.PluginVersion.Construct | src/Plugin/AbstractPluginVersion.php:35-54 | fails exactly when the api version is not "1.0.0", naming it; otherwise stores every argument as given, and no requirements gives a fresh, empty bundle |
| PluginVersions.PluginVersion.CreatePhpFile | src/RepositoryLoader.php:258-268 | a php-file version with the common fields only, under the same api-version check |
| PluginVersions.PluginVersion.CreatePharFile | src/Plugin/PharFilePluginVersion.php:14-26 | the common fields passed through unswapped, `getPluginPath` the given plugin path, a given or absent signature kept as is, the api version still checked |
| PluginVersions.PluginVersion.GetApiVersion | src/Plugin/AbstractPluginVersion.php:57-60 | the returned literal is the stored api version |
| PluginVersions.PluginVersion.Merge | src/Plugin/AbstractPluginVersion.php:99-122 | each of the four lists becomes its `Union` with the other's; nothing else changes (the other fields are constants); never fails |
| Tools.Tool.constructor | src/Tool/Tool.php:39-42 | the given name and no versions |
| Tools.Tool.IsEmpty | src/Tool/Tool.php:77-80 | true exactly when no version is present |
| Tools.Tool.Iterate | src/Tool/Tool.php:89-94 | every stored version once, none twice, each of this tool |
| Tools.Tool.GetVersion | src/Tool/Tool.php:64-70 | succeeds exactly when the version is present; gives the version of that string, or "Version not added" |
| Tools.Tool.AddVersion | src/Tool/Tool.php:52-62 | a name mismatch and then a duplicate version are refused with their errors and change nothing; otherwise the version is appended and retrievable |
| Plugins.Plugin.constructor | src/Plugin/Plugin.php:39-42 | the given name and no versions |
| Plugins.Plugin.IsEmpty | src/Plugin/Plugin.php:82-85 | true exactly when no version is present |
| Plugins.Plugin.Iterate | src/Plugin/Plugin.php:93-98 | every stored version once, none twice, each of this plugin |
| Plugins.Plugin.GetVersion | src/Plugin/Plugin.php:67-73 | succeeds exactly when the version is present; gives the version of that string, or "Version not added" |
| Plugins.Plugin.AddVersion | src/Plugin/Plugin.php:54-64 | a name mismatch and then a duplicate version are refused with their errors and change nothing; otherwise the version is appended and retrievable |
| Repositories.Repository.constructor | src/Repository.php:17-20 | no tools and no plugins |
| Repositories.Repository.IterateTools | src/Repository.php:82-87 | every stored tool, each present name listed and no name twice; the order is the order `AddTool` appends in |
| Repositories.Repository.IteratePlugins | src/Repository.php:97-102 | every stored plugin, each present name listed and no name twice; the order is the order `AddPlugin` appends in |
| Repositories.Repository.GetTool | src/Repository.php:39-46 | succeeds exactly when the name is present; the tool of that name, or tool-not-found carrying the name |
| Repositories.Repository.GetPlugin | src/Repository.php:65-72 | succeeds exactly when the name is present; the plugin of that name, or plugin-not-found carrying the name |
| Repositories.Repository.AddTool | src/Repository.php:29-36 | refused exactly for a present name, changing nothing; otherwise appended and retrievable; plugins untouched |
| Repositories.Repository.AddPlugin | src/Repository.php:55-62 | refused exactly for a present name, with the same "Tool ... already exists" error, changing nothing; otherwise appended; tools untouched |
| Locations.Split | src/RepositoryLoader.php:340 | `explode('/')` gives at least one piece and no piece holds a slash |
| Locations.JoinSplit | src/RepositoryLoader.php:340-341 | joining the pieces of a split gives back the string |
| Locations.SplitJoin | src/RepositoryLoader.php:340-341 | splitting a join of slash-free pieces gives back the pieces |
| Locations.MapEach | src/RepositoryLoader.php:340 | `array_map` applies the encoder to each segment, keeping the count |
| Locations.EncodePathIdentity | src/RepositoryLoader.php:340-341 | a path whose segments need no encoding is left alone |
| Locations.ReplaceBySelf | src/RepositoryLoader.php:341 | replacing a string by itself changes nothing |
| Locations.EncodedUrlUnchanged | src/RepositoryLoader.php:339-341 | a URL whose path needs no encoding is checked as it is |
| Locations.ValidateUrlOrFile | src/RepositoryLoader.php:328-352 | an existing file as given first, then the file under a non-empty base directory; otherwise a location whose URL path is null or false (no path, or a malformed URL) fails with the TypeError `explode` raises under strict types; otherwise the encoded URL when it is valid, and only then the base-prefixed one; "Invalid URI passed" for the location exactly when both URL forms are invalid; a result is always a file or a valid URL |
| Locations.ValidUrlKept | src/RepositoryLoader.php:339-344 | a valid URL that is not a file and needs no encoding is returned unchanged |
| LoaderSpec.RequirementsOf | src/RepositoryLoader.php:296-298 | one requirement per name and constraint entry, in document order; none for an absent category |
| LoaderSpec.LoadedList | src/RepositoryLoader.php:296-298 | a loaded list keeps every requirement under its own name |
| LoaderSpec.ToolRequirementsLoaded | src/RepositoryLoader.php:283-302 | empty requirements give two empty lists |
| LoaderSpec.PluginRequirementsLoaded | src/RepositoryLoader.php:305-326 | empty requirements give four empty lists |
| LoaderSpec.LoadedListKeepsEntries | src/RepositoryLoader.php:296-298 | a category with distinct names never fails and loads exactly its entries, in order |
| LoaderSpec.ToolRequirementsKeepEntries | src/RepositoryLoader.php:283-302 | each php and composer entry becomes one requirement of the matching list, and loading never fails |
| LoaderSpec.PluginRequirementsKeepEntries | src/RepositoryLoader.php:305-326 | the same for php, tool, plugin and composer |
| LoaderSpec.ToolHashLoaded | src/RepositoryLoader.php:208-215 | no checksum gives no hash; otherwise a hash of that type and value, failing exactly when `create` does |
| LoaderSpec.PluginHashLoaded | src/RepositoryLoader.php:277-280 | succeeds exactly when `create` accepts the checksum's type, which every known tag is; the hash then keeps the checksum's type and value; otherwise the invalid-hash error |
| LoaderSpec.OptionalLocation | src/RepositoryLoader.php:198-200 | an absent signature stays absent; a present one is resolved as `validateUrlOrFile` gives, to an existing file or a valid URL, with its error on failure |
| LoaderSpec.BuildToolRecord | src/RepositoryLoader.php:192-201 | the record carries the tool's name and the entry's version |
| LoaderSpec.BuildToolRecordResolves | src/RepositoryLoader.php:192-201 | a built record's phar url is the resolved location, an existing file or a valid URL; a signature exactly when the entry has one, resolved as the phar url is, to an existing file or a valid URL; a hash exactly when the entry has a checksum, with the checksum's type and value; an unresolvable url fails with its error |
| LoaderSpec.BuildPluginRecord | src/RepositoryLoader.php:253-272 | the record carries the plugin's name and the entry's version |
| LoaderSpec.BuildPluginRecordPhpFileOnly | src/RepositoryLoader.php:253-272 | a type other than "php-file" is "Unexpected plugin type"; a missing url fails; a built record is a php-file version with the supported api version at the resolved file path; a signature exactly when the entry has one, resolved as the file is, to an existing file or a valid URL; the hash has the checksum's type and value, and a rejected checksum fails the entry |
| LoaderSpec.AddToolRecord | src/RepositoryLoader.php:192 | one `addVersion` step: a build error passes through; a built record is refused with "already added" exactly when its version is already collected for the tool; otherwise the names stay as they were, the version is appended to that tool's versions with the record stored under it, and every other tool is unchanged |
| LoaderSpec.AddPluginRecord | src/RepositoryLoader.php:236-238 | the same step for a plugin: the build error passes through, a collected version is refused with "already added", otherwise the record is appended to that plugin alone |
| LoaderSpec.Initial | src/RepositoryLoader.php:80-83 | a loader starts with no tools and no plugins |
| LoaderProperties.LoadDataWellFormed | src/RepositoryLoader.php:108-127 | data handed back by `loadData` holds at least one tool or plugin, every aggregate is keyed by its records' version strings, and a larger include depth gives the same result |
| LoaderProperties.AddToolVersionsBuiltAll | src/RepositoryLoader.php:191-202 | a tool's walk succeeds only when every one of its entries was built |
| LoaderProperties.AddToolVersionsAppends | src/RepositoryLoader.php:191-202 | a successful walk appends the versions, in document order, to that tool's aggregate and leaves every other aggregate and the names as they were |
| LoaderProperties.AddToolVersionsNeedsFreshVersions | src/RepositoryLoader.php:191-202 | success requires the versions to be pairwise different and new to the aggregate |
| LoaderProperties.WalkToolVersionsFirstSight | src/RepositoryLoader.php:186-203 | on first sight the tool is appended after the names seen so far, otherwise it is reused; its versions end with the entries' versions in order; nothing collected is lost |
| LoaderProperties.StartToolAggregate | src/RepositoryLoader.php:188-190 | a new name gets an empty aggregate appended; a known name keeps its own |
| LoaderProperties.WalkToolVersionsRejectsRepeats | src/RepositoryLoader.php:186-203 | a version string repeated among a tool's entries, or already collected for it, makes the walk fail |
| LoaderProperties.WalkToolsExtends | src/RepositoryLoader.php:176-181 | walking tools keeps every aggregate well formed and loses nothing collected before |
| LoaderProperties.WalkToolsCovers | src/RepositoryLoader.php:176-181 | after walking tools every listed name has an aggregate |
| LoaderProperties.AddPluginVersionsBuiltAll | src/RepositoryLoader.php:235-239 | a plugin's walk succeeds only when every one of its entries was built |
| LoaderProperties.AddPluginVersionsAppends | src/RepositoryLoader.php:235-239 | a successful walk appends the versions, in document order, to that plugin's aggregate only |
| LoaderProperties.AddPluginVersionsNeedsFreshVersions | src/RepositoryLoader.php:235-239 | success requires the versions to be pairwise different and new to the aggregate |
| LoaderProperties.WalkPluginVersionsFirstSight | src/RepositoryLoader.php:230-240 | on first sight the plugin is appended after the names seen so far, otherwise it is reused; its versions end with the entries' versions in order |
| LoaderProperties.StartPluginAggregate | src/RepositoryLoader.php:232-234 | a new name gets an empty aggregate appended; a known name keeps its own |
| LoaderProperties.WalkPluginVersionsRejectsRepeats | src/RepositoryLoader.php:230-240 | a repeated or already collected version string makes the walk fail |
| LoaderProperties.WalkPluginsExtends | src/RepositoryLoader.php:220-225 | walking plugins keeps every aggregate well formed and loses nothing collected before |
| LoaderProperties.WalkPluginsCovers | src/RepositoryLoader.php:220-225 | after walking plugins every listed name has an aggregate |
| LoaderProperties.ReadFileExtends | src/RepositoryLoader.php:157-171 | reading a file, and every file it includes, only adds to both maps and keeps them well formed |
| LoaderProperties.WalkContentsExtends | src/RepositoryLoader.php:161-170 | the sections and includes of one file only add to both maps |
| LoaderProperties.WalkSectionsExtends | src/RepositoryLoader.php:162-167 | the tool and plugin sections of one file only add to both maps |
| LoaderProperties.WalkIncludeFilesExtends | src/RepositoryLoader.php:245-250 | each include's results accumulate into the same maps, losing nothing |
| LoaderProperties.ReadFileFuelMonotone | src/RepositoryLoader.php:157-171 | a read that succeeds within an include depth gives the same result with any larger depth |
| LoaderProperties.WalkContentsFuelMonotone | src/RepositoryLoader.php:161-170 | the same for one file's contents |
| LoaderProperties.WalkIncludeFilesFuelMonotone | src/RepositoryLoader.php:245-250 | the same for a list of includes |
| Loaders.RepositoryLoader.constructor | src/RepositoryLoader.php:151-154 | the given file loader and nothing collected |
| Loaders.RepositoryLoader.AddToolVersion | src/RepositoryLoader.php:192 | refused exactly when the version is already collected for the tool, changing nothing; otherwise the version's record is appended to that tool's aggregate and nothing else changes |
| Loaders.RepositoryLoader.AddPluginVersion | src/RepositoryLoader.php:236-238 | the same for plugins |
| Loaders.RepositoryLoader.AddRequirements | src/RepositoryLoader.php:296-298 | the list ends as `AddAll` of its old contents and the entries, or fails with its error |
| Loaders.RepositoryLoader.LoadToolRequirements | src/RepositoryLoader.php:283-302 | a fresh bundle whose lists are what `ToolRequirementsLoaded` gives, or its error |
| Loaders.RepositoryLoader.LoadPluginRequirements | src/RepositoryLoader.php:305-326 | a fresh bundle whose lists are what `PluginRequirementsLoaded` gives, or its error |
| Loaders.RepositoryLoader.NewToolVersion | src/RepositoryLoader.php:192-201 | a fresh version object holding `BuildToolRecord`'s record, or its error |
| Loaders.RepositoryLoader.LoadPluginVersion | src/RepositoryLoader.php:253-272 | a fresh version object holding `BuildPluginRecord`'s record, or its error |
| Loaders.RepositoryLoader.OpenTool | src/RepositoryLoader.php:188-190 | a new, empty aggregate on first sight of the name; a known name left as it was |
| Loaders.RepositoryLoader.OpenPlugin | src/RepositoryLoader.php:232-234 | the same for plugins |
| Loaders.RepositoryLoader.AddToolEntry | src/RepositoryLoader.php:192-201 | one step of `AddToolVersions`: the build error, the duplicate error, or the record appended |
| Loaders.RepositoryLoader.AddPluginEntry | src/RepositoryLoader.php:236-238 | one step of `AddPluginVersions` |
| Loaders.RepositoryLoader.AddToolEntries | src/RepositoryLoader.php:191-202 | the tools end as `AddToolVersions` of the old tools and the built records, or fail with its error |
| Loaders.RepositoryLoader.AddPluginEntries | src/RepositoryLoader.php:235-239 | the plugins end as `AddPluginVersions` gives, or fail with its error |
| Loaders.RepositoryLoader.WalkToolVersions | src/RepositoryLoader.php:186-203 | the tools end as the spec walk of that tool gives; plugins untouched |
| Loaders.RepositoryLoader.WalkPluginVersions | src/RepositoryLoader.php:230-240 | the plugins end as the spec walk of that plugin gives; tools untouched |
| Loaders.RepositoryLoader.WalkTools | src/RepositoryLoader.php:176-181 | the tools end as `WalkTools` gives, or the walk fails with its error |
| Loaders.RepositoryLoader.WalkPlugins | src/RepositoryLoader.php:220-225 | the plugins end as `WalkPlugins` gives, or the walk fails with its error |
| Loaders.RepositoryLoader.WalkSections | src/RepositoryLoader.php:162-167 | tools, then plugins, each when present, as `WalkSections` gives |
| Loaders.RepositoryLoader.ReadFile | src/RepositoryLoader.php:157-171 | the collected state becomes what `ReadFile` gives from the old state, or the read fails with its error |
| Loaders.RepositoryLoader.WalkContents | src/RepositoryLoader.php:161-170 | the same for one loaded file's contents |
| Loaders.RepositoryLoader.ReadInclude | src/RepositoryLoader.php:248 | an include is resolved relative to the directory, then read with its own checksum |
| Loaders.RepositoryLoader.WalkIncludeFiles | src/RepositoryLoader.php:245-250 | each include read in turn into the same maps, as `WalkIncludeFiles` gives |
| Loaders.RepositoryLoader.ToolsListed | src/RepositoryLoader.php:116 | `array_values` of the tools lists each collected tool once, in first-sight order, with its aggregate |
| Loaders.RepositoryLoader.PluginsListed | src/RepositoryLoader.php:117 | the same for plugins |
| Loaders.RepositoryLoader.LoadData | src/RepositoryLoader.php:108-127 | fails exactly when the spec `LoadData` fails; gives nothing exactly when it does; otherwise the tools and plugins, in first-sight order, each holding its aggregate |
| Loaders.RepositoryLoader.AddPlugins | src/RepositoryLoader.php:141-143 | the repository iterates exactly the given plugins, in order; tools untouched |
| Loaders.RepositoryLoader.AddTools | src/RepositoryLoader.php:144-146 | the repository iterates exactly the given tools, in order; plugins untouched |
| Loaders.RepositoryLoader.LoadRepository | src/RepositoryLoader.php:130-149 | an empty repository when `loadData` gives nothing; otherwise every collected plugin and tool exactly once, in first-sight order, each with its aggregate |

## Left out

- The JSON file loader is not part of this model. This covers reading files, `json_decode` and checksum verification. The loader is a function in `Environment` from a location and an optional checksum to decoded contents or an error.
- `is_file`, `parse_url`, `urlencode`, `filter_var(FILTER_VALIDATE_URL)` and `dirname` are foreign calls. They are functions in `Environment`, and their real semantics are not modelled. `parse_url` gives `None` where PHP gives null or false.
- The digests behind `ToolHash` and `PluginHash` are not computed, and their sources are not part of this model. The hash is a datatype over four algorithms. The type tags are assumed to be "sha1", "sha256", "sha384" and "sha512".
- `PhpFilePluginVersion` and `PhpInlinePluginVersion` are not part of this model: their code and signature are read from files. A php-file version built by the loader has the common fields only. The loader never builds a php-inline version.
- The interface files declare types only. `Tool` not declaring the interface that `Repository.addTool` takes is not modelled.
- Exception classes are reduced to one `Error` constructor each, carrying the values their messages name.
- `load` is a deprecated alias that only calls `loadData`, so it is not modelled separately.
- Loaders.RepositoryLoader.ReadFile: include nesting is bounded by `fuel`, and the source's unbounded recursion (include cycles included) is not modelled beyond that bound. `fuel` is also a parameter of `LoadData` and `LoadRepository`.
- Loaders.RepositoryLoader.LoadPluginVersion: the assertion that a php-file entry has a url is modelled as the error `MissingPluginUrl`. With assertions disabled, PHP would fail later with a type error instead.
- Loaders.RepositoryLoader.ReadFile: when a walk fails, the contract says nothing about the partly filled maps. The source throws, and the loader instance is then discarded.
- ToolVersions.ToolVersion.Merge: requires that no receiver list it writes first is a list of the other record that it reads later. The source states no such demand, but nothing reachable is excluded. Every bundle creates its own lists (src/Tool/ToolRequirements.php:28-32), so two versions the source builds never share a list.
- PluginVersions.PluginVersion.Merge: requires the same absence of aliasing between the two bundles. It holds for every pair the source can build: each bundle creates its own four lists (src/Plugin/PluginRequirements.php:42-48), and `__clone` replaces them with copies (src/Plugin/PluginRequirements.php:82-88).
- Loaders.RepositoryLoader.AddPlugins: requires an empty plugin map and distinct names, which `loadRepository` guarantees. The duplicate-name error of `addPlugin` cannot arise there.
- Loaders.RepositoryLoader.AddTools: requires an empty tool map and distinct names, for the same reason.
- PHP turns integer-like array keys (a requirement named "123", say) into integers. With strict types, `new VersionRequirement` would then reject them. Keys are strings throughout the model.
- Manifest fields of the wrong JSON type (a non-string url, say) are not modelled. The decoded manifest is typed, and absent optional members are `None`.
- Getters returning a field unchanged are modelled as the field itself (`const`/`var` members).
