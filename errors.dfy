/**
 * The exceptions the repository definition raises, one constructor per
 * distinct exception (class and message) of the source.
 */
module Errors {

  datatype Error =
    /** InvalidHashException: "Invalid hash type: <type> (<value>)". */
    | InvalidHash(hashType: string, value: string)
    /** LogicException: "Requirement already added for <name>". */
    | RequirementAlreadyAdded(name: string)
    /** LogicException: "Requirement not added for <name>". */
    | RequirementNotAdded(name: string)
    /** RuntimeException: "Invalid version string: <apiVersion>". */
    | InvalidApiVersion(apiVersion: string)
    /** InvalidArgumentException: "Tool name mismatch: <name>". */
    | ToolNameMismatch(name: string)
    /** InvalidArgumentException: "Plugin name mismatch: <name>". */
    | PluginNameMismatch(name: string)
    /** LogicException: "Version already added: <version>" (tools and plugins). */
    | VersionAlreadyAdded(version: string)
    /** LogicException: "Version not added: <version>" (tools and plugins). */
    | VersionNotAdded(version: string)
    /**
     * InvalidArgumentException: "Tool <name> already exists"; the repository
     * raises it with this same text for a duplicate tool and a duplicate plugin.
     */
    | ToolAlreadyExists(name: string)
    /** ToolNotFoundException, carrying the tool name. */
    | ToolNotFound(name: string)
    /** PluginNotFoundException, carrying the plugin name. */
    | PluginNotFound(name: string)
    /** RuntimeException: "Invalid URI passed: <url>". */
    | InvalidUri(url: string)
    /**
     * The TypeError `explode` raises under strict types when the URL path of a
     * location that is no file is null (no path) or false (a malformed URL).
     */
    | UrlPathTypeError(url: string)
    /** RuntimeException: "Unexpected plugin type encountered <type>". */
    | UnexpectedPluginType(pluginType: string)
    /** A php-file plugin entry without a url (a failed assertion or a type error). */
    | MissingPluginUrl(name: string)
    /** JsonFileNotFoundException raised by the JSON file loader. */
    | JsonFileNotFound(file: string)
    /** InvalidHashException raised by the JSON file loader on a checksum mismatch. */
    | ChecksumMismatch(hashType: string, value: string)
    /** A JSON decoding failure inside the JSON file loader. */
    | MalformedJson(file: string)
    /** The model's bound on include nesting was reached (the source recurses without bound). */
    | IncludeDepthExceeded(file: string)
}
