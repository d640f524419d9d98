/**
 * The decoded contents of a repository manifest, and the collaborators the
 * loader calls but whose code is not part of this model: the JSON file loader
 * and PHP's `is_file`, `parse_url(..., PHP_URL_PATH)`, `urlencode`,
 * `filter_var(..., FILTER_VALIDATE_URL)` and `dirname`.
 */
module Manifests {
  import opened Wrappers
  import opened Errors

  /** A `{type, value}` checksum object. */
  datatype Checksum = Checksum(hashType: string, value: string)

  /** A JSON object of requirement name to constraint, in document order. */
  type Pairs = seq<(string, string)>

  /** A tool version's `requirements` object; each member may be absent. */
  datatype ToolRequirementsData = ToolRequirementsData(php: Option<Pairs>, composer: Option<Pairs>)

  /** A plugin version's `requirements` object; each member may be absent. */
  datatype PluginRequirementsData = PluginRequirementsData(
    php: Option<Pairs>, tool: Option<Pairs>, plugin: Option<Pairs>, composer: Option<Pairs>)

  /** One entry of a tool's version list. */
  datatype ToolEntry = ToolEntry(
    version: string,
    url: string,
    requirements: Option<ToolRequirementsData>,
    checksum: Option<Checksum>,
    signature: Option<string>)

  /** One entry of a plugin's version list. */
  datatype PluginEntry = PluginEntry(
    pluginType: string,
    version: string,
    apiVersion: string,
    requirements: Option<PluginRequirementsData>,
    url: Option<string>,
    checksum: Checksum,
    signature: Option<string>)

  /** One entry of the `includes` list. */
  datatype IncludeEntry = IncludeEntry(url: string, checksum: Option<Checksum>)

  /**
   * A decoded manifest: `tools` and `plugins` map names to version lists, in
   * document order; each of the three members may be absent.
   */
  datatype Manifest = Manifest(
    tools: Option<seq<(string, seq<ToolEntry>)>>,
    plugins: Option<seq<(string, seq<PluginEntry>)>>,
    includes: Option<seq<IncludeEntry>>)

  /**
   * The outside world, as the loader sees it. `load` is the JSON file loader:
   * the decoded contents of a location read with an optional checksum, or the
   * error it raises. `urlPath` is `parse_url(..., PHP_URL_PATH)`: the path
   * component of a URL, or `None` where PHP gives null (no path) or false (a
   * malformed URL).
   */
  datatype Environment = Environment(
    load: (string, Option<Checksum>) -> Result<Manifest, Error>,
    isFile: string -> bool,
    urlPath: string -> Option<string>,
    urlEncode: string -> string,
    isValidUrl: string -> bool,
    dirname: string -> string)
}
