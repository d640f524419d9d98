/**
 * The repository: the tools and the plugins it offers, each keyed by name in
 * the order they were added. Names of tools and names of plugins are separate.
 */
module Repositories {
  import opened Wrappers
  import opened Errors
  import opened OrderedMaps
  import opened Tools
  import opened Plugins

  class Repository {
    var tools: OrderedMap<string, Tool>
    var plugins: OrderedMap<string, Plugin>

    /** Every aggregate is stored under its own name. */
    ghost predicate Valid()
      reads this
    {
      && tools.Valid() && plugins.Valid()
      && (forall k :: k in tools.table ==> tools.table[k].name == k)
      && (forall k :: k in plugins.table ==> plugins.table[k].name == k)
    }

    /** An empty repository. */
    constructor ()
      ensures Valid() && IterateTools() == [] && IteratePlugins() == []
    {
      tools := Empty();
      plugins := Empty();
    }

    /** `hasTool`. */
    predicate HasTool(name: string)
      reads this
    {
      name in tools.table
    }

    /** `hasPlugin`. */
    predicate HasPlugin(name: string)
      reads this
    {
      name in plugins.table
    }

    /** `iterateTools`: the tools in the order they were added, no name twice. */
    function IterateTools(): (r: seq<Tool>)
      reads this
      requires Valid()
      ensures forall i :: 0 <= i < |r| ==> HasTool(r[i].name)
      ensures forall i, j :: 0 <= i < j < |r| ==> r[i].name != r[j].name
      ensures forall n :: HasTool(n) ==> exists i :: 0 <= i < |r| && r[i].name == n
    {
      var r := tools.Values();
      assert forall i :: 0 <= i < |r| ==> r[i].name == tools.keys[i];
      assert forall n :: HasTool(n) ==> r[IndexOf(tools.keys, n)].name == n;
      r
    }

    /** `iteratePlugins`: the plugins in the order they were added, no name twice. */
    function IteratePlugins(): (r: seq<Plugin>)
      reads this
      requires Valid()
      ensures forall i :: 0 <= i < |r| ==> HasPlugin(r[i].name)
      ensures forall i, j :: 0 <= i < j < |r| ==> r[i].name != r[j].name
      ensures forall n :: HasPlugin(n) ==> exists i :: 0 <= i < |r| && r[i].name == n
    {
      var r := plugins.Values();
      assert forall i :: 0 <= i < |r| ==> r[i].name == plugins.keys[i];
      assert forall n :: HasPlugin(n) ==> r[IndexOf(plugins.keys, n)].name == n;
      r
    }

    /** `getTool`: the tool of that name, or a tool-not-found error. */
    function GetTool(name: string): (r: Result<Tool, Error>)
      reads this
      requires Valid()
      ensures r.Ok? <==> HasTool(name)
      ensures r.Ok? ==> r.value.name == name && r.value in IterateTools()
      ensures r.Err? ==> r.error == ToolNotFound(name)
    {
      if !HasTool(name) then
        Err(ToolNotFound(name))
      else
        assert tools.Values()[IndexOf(tools.keys, name)] == tools.table[name];
        Ok(tools.table[name])
    }

    /** `getPlugin`: the plugin of that name, or a plugin-not-found error. */
    function GetPlugin(name: string): (r: Result<Plugin, Error>)
      reads this
      requires Valid()
      ensures r.Ok? <==> HasPlugin(name)
      ensures r.Ok? ==> r.value.name == name && r.value in IteratePlugins()
      ensures r.Err? ==> r.error == PluginNotFound(name)
    {
      if !HasPlugin(name) then
        Err(PluginNotFound(name))
      else
        assert plugins.Values()[IndexOf(plugins.keys, name)] == plugins.table[name];
        Ok(plugins.table[name])
    }

    /**
     * `addTool`: a second tool of the same name is refused ("Tool ... already
     * exists"); otherwise the tool is appended. The plugins are untouched.
     */
    method AddTool(t: Tool) returns (res: Outcome<Error>)
      requires Valid()
      modifies this
      ensures Valid() && plugins == old(plugins)
      ensures res.Fail? <==> old(HasTool(t.name))
      ensures res.Fail? ==> res.error == ToolAlreadyExists(t.name) && tools == old(tools)
      ensures res.Pass? ==> tools.table == old(tools.table)[t.name := t]
      ensures res.Pass? ==> IterateTools() == old(IterateTools()) + [t] && GetTool(t.name) == Ok(t)
    {
      if HasTool(t.name) {
        return Fail(ToolAlreadyExists(t.name));
      }
      PutNewAppends(tools, t.name, t);
      tools := tools.Put(t.name, t);
      return Pass;
    }

    /**
     * `addPlugin`: a second plugin of the same name is refused, with the same
     * "Tool ... already exists" message `addTool` uses; otherwise the plugin is
     * appended. The tools are untouched.
     */
    method AddPlugin(p: Plugin) returns (res: Outcome<Error>)
      requires Valid()
      modifies this
      ensures Valid() && tools == old(tools)
      ensures res.Fail? <==> old(HasPlugin(p.name))
      ensures res.Fail? ==> res.error == ToolAlreadyExists(p.name) && plugins == old(plugins)
      ensures res.Pass? ==> plugins.table == old(plugins.table)[p.name := p]
      ensures res.Pass? ==> IteratePlugins() == old(IteratePlugins()) + [p] && GetPlugin(p.name) == Ok(p)
    {
      if HasPlugin(p.name) {
        return Fail(ToolAlreadyExists(p.name));
      }
      PutNewAppends(plugins, p.name, p);
      plugins := plugins.Put(p.name, p);
      return Pass;
    }
  }
}
