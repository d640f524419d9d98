/**
 * Requirement bundles: fixed groups of requirement lists, one per category.
 * The lists are mutable objects that the getters hand out, so additions made
 * through a getter persist in the bundle.
 */
module Bundles {
  import opened OrderedMaps
  import opened Requirements

  /** Platform (`php`) and composer requirements of a tool version. */
  class ToolRequirements {
    /** `getPhpRequirements()`. */
    const php: VersionRequirementList
    /** `getComposerRequirements()`. */
    const composer: VersionRequirementList

    /** The two categories are distinct lists. */
    ghost predicate Valid()
      reads php, composer
    {
      php != composer && php.Valid() && composer.Valid()
    }

    /** `new ToolRequirements()`: two fresh, empty lists. */
    constructor ()
      ensures Valid()
      ensures fresh(php) && fresh(composer)
      ensures php.entries == Empty() && composer.entries == Empty()
    {
      php := new VersionRequirementList();
      composer := new VersionRequirementList();
    }
  }

  /** Platform, tool, plugin and composer requirements of a plugin version. */
  class PluginRequirements {
    /** `getPhpRequirements()`. */
    const php: VersionRequirementList
    /** `getToolRequirements()`. */
    const tool: VersionRequirementList
    /** `getPluginRequirements()`. */
    const plugin: VersionRequirementList
    /** `getComposerRequirements()`. */
    const composer: VersionRequirementList

    /** The four categories are pairwise distinct lists. */
    ghost predicate Valid()
      reads php, tool, plugin, composer
    {
      && php != tool && php != plugin && php != composer
      && tool != plugin && tool != composer && plugin != composer
      && php.Valid() && tool.Valid() && plugin.Valid() && composer.Valid()
    }

    /** `new PluginRequirements()`: four fresh, empty lists. */
    constructor ()
      ensures Valid()
      ensures fresh(php) && fresh(tool) && fresh(plugin) && fresh(composer)
      ensures php.entries == Empty() && tool.entries == Empty()
      ensures plugin.entries == Empty() && composer.entries == Empty()
    {
      php := new VersionRequirementList();
      tool := new VersionRequirementList();
      plugin := new VersionRequirementList();
      composer := new VersionRequirementList();
    }

    /** Helper of `Clone`: the shallow copy `clone` makes before `__clone` replaces its lists. */
    constructor Holding(php: VersionRequirementList, tool: VersionRequirementList,
                        plugin: VersionRequirementList, composer: VersionRequirementList)
      ensures this.php == php && this.tool == tool && this.plugin == plugin && this.composer == composer
    {
      this.php := php;
      this.tool := tool;
      this.plugin := plugin;
      this.composer := composer;
    }

    /**
     * `clone` with `__clone`: a new bundle whose four lists are fresh copies, so
     * changing the copy never changes this bundle.
     */
    method Clone() returns (c: PluginRequirements)
      requires Valid()
      ensures fresh(c) && fresh(c.php) && fresh(c.tool) && fresh(c.plugin) && fresh(c.composer)
      ensures c.Valid()
      ensures c.php.entries == php.entries && c.tool.entries == tool.entries
      ensures c.plugin.entries == plugin.entries && c.composer.entries == composer.entries
    {
      var co := composer.Clone();
      var p := php.Clone();
      var t := tool.Clone();
      var pl := plugin.Clone();
      c := new PluginRequirements.Holding(p, t, pl, co);
    }
  }

  /**
   * `merge` visits the categories in a fixed order, reading the other bundle's
   * list of each category after writing the receiver's earlier ones; the model
   * requires that no earlier-written receiver list is a later-read list of the
   * other bundle.
   */
  predicate ToolMergeable(target: ToolRequirements, source: ToolRequirements) {
    target.php != source.composer
  }

  predicate PluginMergeable(target: PluginRequirements, source: PluginRequirements) {
    && target.php != source.tool && target.php != source.plugin && target.php != source.composer
    && target.tool != source.plugin && target.tool != source.composer
    && target.plugin != source.composer
  }
}
