/**
 * The repository loader as an object: it collects tool and plugin aggregates
 * in two name-keyed maps while it reads a repository file and, recursively,
 * every file that file includes. Each method is proved against the matching
 * function of `LoaderSpec`, through views that turn the collected objects into
 * the records those functions work on.
 */
module Loaders {
  import opened Wrappers
  import opened Errors
  import opened OrderedMaps
  import opened Requirements
  import opened Bundles
  import opened ToolVersions
  import opened PluginVersions
  import opened Tools
  import opened Plugins
  import opened Repositories
  import opened Manifests
  import opened Locations
  import opened LoaderSpec

  // ----- Views of the collected objects -----

  /** The loader's tools, down to the version objects, without looking inside those. */
  type ToolShape = OrderedMap<string, OrderedMap<string, ToolVersion>>
  type PluginShape = OrderedMap<string, OrderedMap<string, PluginVersion>>

  ghost function ToolSet(m: OrderedMap<string, Tool>): set<Tool> {
    set n | n in m.table :: m.table[n]
  }

  ghost function PluginSet(m: OrderedMap<string, Plugin>): set<Plugin> {
    set n | n in m.table :: m.table[n]
  }

  ghost function ToolShapeOf(m: OrderedMap<string, Tool>): ToolShape
    reads ToolSet(m)
  {
    OrderedMap(m.keys, map n | n in m.table :: m.table[n].versions)
  }

  ghost function PluginShapeOf(m: OrderedMap<string, Plugin>): PluginShape
    reads PluginSet(m)
  {
    OrderedMap(m.keys, map n | n in m.table :: m.table[n].versions)
  }

  /** The version objects of one aggregate, and the requirement lists they hold. */
  ghost function ToolVersionObjects(vs: OrderedMap<string, ToolVersion>): set<ToolVersion> {
    set k | k in vs.table :: vs.table[k]
  }

  ghost function ToolVersionLists(vs: OrderedMap<string, ToolVersion>): set<VersionRequirementList> {
    (set k | k in vs.table :: vs.table[k].requirements.php)
      + (set k | k in vs.table :: vs.table[k].requirements.composer)
  }

  ghost function PluginVersionLists(vs: OrderedMap<string, PluginVersion>): set<VersionRequirementList> {
    (set k | k in vs.table :: vs.table[k].requirements.php)
      + (set k | k in vs.table :: vs.table[k].requirements.tool)
      + (set k | k in vs.table :: vs.table[k].requirements.plugin)
      + (set k | k in vs.table :: vs.table[k].requirements.composer)
  }

  /** The same for every aggregate of a shape. */
  ghost function ToolShapeObjects(s: ToolShape): set<ToolVersion> {
    set n, k | n in s.table && k in s.table[n].table :: s.table[n].table[k]
  }

  ghost function ToolShapeLists(s: ToolShape): set<VersionRequirementList> {
    (set n, k | n in s.table && k in s.table[n].table :: s.table[n].table[k].requirements.php)
      + (set n, k | n in s.table && k in s.table[n].table :: s.table[n].table[k].requirements.composer)
  }

  ghost function PluginShapeLists(s: PluginShape): set<VersionRequirementList> {
    (set n, k | n in s.table && k in s.table[n].table :: s.table[n].table[k].requirements.php)
      + (set n, k | n in s.table && k in s.table[n].table :: s.table[n].table[k].requirements.tool)
      + (set n, k | n in s.table && k in s.table[n].table :: s.table[n].table[k].requirements.plugin)
      + (set n, k | n in s.table && k in s.table[n].table :: s.table[n].table[k].requirements.composer)
  }

  /** One aggregate's version objects, each as the record it currently holds. */
  ghost function ToolAggregateOf(vs: OrderedMap<string, ToolVersion>): ToolAggregate
    reads ToolVersionObjects(vs), ToolVersionLists(vs)
  {
    OrderedMap(vs.keys, map k | k in vs.table :: vs.table[k].Snapshot())
  }

  ghost function PluginAggregateOf(vs: OrderedMap<string, PluginVersion>): PluginAggregate
    reads PluginVersionLists(vs)
  {
    OrderedMap(vs.keys, map k | k in vs.table :: vs.table[k].Snapshot())
  }

  /** The collected tools as the records `LoaderSpec` works on. */
  ghost function ToolRecordsOf(s: ToolShape): ToolsState
    reads ToolShapeObjects(s), ToolShapeLists(s)
  {
    OrderedMap(s.keys, map n | n in s.table :: ToolAggregateOf(s.table[n]))
  }

  ghost function PluginRecordsOf(s: PluginShape): PluginsState
    reads PluginShapeLists(s)
  {
    OrderedMap(s.keys, map n | n in s.table :: PluginAggregateOf(s.table[n]))
  }

  /** Every aggregate valid and stored under its own name, so distinct names hold distinct objects. */
  ghost predicate ToolsValid(m: OrderedMap<string, Tool>)
    reads ToolSet(m)
  {
    m.Valid() && forall n :: n in m.table ==> m.table[n].name == n && m.table[n].Valid()
  }

  ghost predicate PluginsValid(m: OrderedMap<string, Plugin>)
    reads PluginSet(m)
  {
    m.Valid() && forall n :: n in m.table ==> m.table[n].name == n && m.table[n].Valid()
  }

  // ----- How the views change -----

  /** Appending a version object to one aggregate appends its record to that aggregate's view. */
  lemma ToolRecordsAppend(s: ToolShape, name: string, v: ToolVersion)
    requires name in s.table && v.version !in s.table[name].table
    ensures ToolRecordsOf(s.Put(name, s.table[name].Put(v.version, v)))
         == ToolRecordsOf(s).Put(name, ToolRecordsOf(s).table[name].Put(v.version, v.Snapshot()))
  {
    var vs := s.table[name];
    assert ToolAggregateOf(vs.Put(v.version, v)) == ToolAggregateOf(vs).Put(v.version, v.Snapshot());
  }

  lemma PluginRecordsAppend(s: PluginShape, name: string, v: PluginVersion)
    requires name in s.table && v.version !in s.table[name].table
    ensures PluginRecordsOf(s.Put(name, s.table[name].Put(v.version, v)))
         == PluginRecordsOf(s).Put(name, PluginRecordsOf(s).table[name].Put(v.version, v.Snapshot()))
  {
    var vs := s.table[name];
    assert PluginAggregateOf(vs.Put(v.version, v)) == PluginAggregateOf(vs).Put(v.version, v.Snapshot());
  }

  lemma ToolVersionsPut(m: map<string, Tool>, m': map<string, Tool>, name: string, t: Tool)
    requires m' == m[name := t]
    ensures (map n | n in m' :: m'[n].versions)
         == (map n | n in m :: m[n].versions)[name := t.versions]
  {
  }

  /** Storing a new aggregate under a new name. */
  twostate lemma ToolShapeOfNew(m: OrderedMap<string, Tool>, new name: string, new t: Tool)
    requires old(ToolsValid(m)) && name !in m.table
    requires forall u: Tool {:trigger allocated(u)} :: old(allocated(u)) ==> unchanged(u)
    requires t.name == name && t.Valid() && t.versions == Empty()
    ensures ToolsValid(m.Put(name, t))
    ensures ToolShapeOf(m.Put(name, t)) == old(ToolShapeOf(m)).Put(name, Empty())
  {
    forall n | n in m.table ensures unchanged(m.table[n]) {
      assert allocated(m.table[n]);
    }
    var m' := m.Put(name, t);
    var before := old(map n | n in m.table :: m.table[n].versions);
    assert (map n | n in m.table :: m.table[n].versions) == before;
    ToolVersionsPut(m.table, m'.table, name, t);
    assert old(ToolShapeOf(m)) == OrderedMap(m.keys, before);
    assert ToolShapeOf(m') == OrderedMap(m.keys + [name], before[name := Empty()]);
  }

  lemma PluginVersionsPut(m: map<string, Plugin>, m': map<string, Plugin>, name: string, p: Plugin)
    requires m' == m[name := p]
    ensures (map n | n in m' :: m'[n].versions)
         == (map n | n in m :: m[n].versions)[name := p.versions]
  {
  }

  twostate lemma PluginShapeOfNew(m: OrderedMap<string, Plugin>, new name: string, new p: Plugin)
    requires old(PluginsValid(m)) && name !in m.table
    requires forall u: Plugin {:trigger allocated(u)} :: old(allocated(u)) ==> unchanged(u)
    requires p.name == name && p.Valid() && p.versions == Empty()
    ensures PluginsValid(m.Put(name, p))
    ensures PluginShapeOf(m.Put(name, p)) == old(PluginShapeOf(m)).Put(name, Empty())
  {
    forall n | n in m.table ensures unchanged(m.table[n]) {
      assert allocated(m.table[n]);
    }
    var m' := m.Put(name, p);
    var before := old(map n | n in m.table :: m.table[n].versions);
    assert (map n | n in m.table :: m.table[n].versions) == before;
    PluginVersionsPut(m.table, m'.table, name, p);
    assert old(PluginShapeOf(m)) == OrderedMap(m.keys, before);
    assert PluginShapeOf(m') == OrderedMap(m.keys + [name], before[name := Empty()]);
  }

  /** A new, empty aggregate shows as an empty aggregate. */
  lemma ToolRecordsNew(s: ToolShape, name: string)
    requires name !in s.table
    ensures ToolRecordsOf(s.Put(name, Empty())) == ToolRecordsOf(s).Put(name, Empty())
  {
    assert ToolAggregateOf(Empty()) == Empty();
  }

  lemma PluginRecordsNew(s: PluginShape, name: string)
    requires name !in s.table
    ensures PluginRecordsOf(s.Put(name, Empty())) == PluginRecordsOf(s).Put(name, Empty())
  {
    assert PluginAggregateOf(Empty()) == Empty();
  }

  // ----- What a step leaves alone -----

  /**
   * A step that changes no tool, no plugin, no tool version or no requirement
   * list that existed before it leaves the corresponding view as it was.
   */
  twostate lemma ToolShapeKept(m: OrderedMap<string, Tool>)
    requires forall t: Tool {:trigger allocated(t)} :: old(allocated(t)) ==> unchanged(t)
    ensures ToolShapeOf(m) == old(ToolShapeOf(m))
  {
  }

  twostate lemma PluginShapeKept(m: OrderedMap<string, Plugin>)
    requires forall p: Plugin {:trigger allocated(p)} :: old(allocated(p)) ==> unchanged(p)
    ensures PluginShapeOf(m) == old(PluginShapeOf(m))
  {
  }

  /**
   * A step that changes only the aggregate stored under `name`, and keeps it
   * valid, keeps every aggregate valid and changes the shape at `name` only.
   */
  twostate lemma ToolChangedAt(m: OrderedMap<string, Tool>, new name: string)
    requires old(ToolsValid(m)) && name in m.table && m.table[name].Valid()
    requires forall t: Tool {:trigger allocated(t)} :: old(allocated(t)) && t != m.table[name] ==> unchanged(t)
    ensures ToolsValid(m)
    ensures ToolShapeOf(m) == old(ToolShapeOf(m)).Put(name, m.table[name].versions)
  {
    var before := old(map n | n in m.table :: m.table[n].versions);
    forall n | n in m.table && n != name ensures unchanged(m.table[n]) && m.table[n].versions == before[n] {
      assert allocated(m.table[n]);
    }
    assert (map n | n in m.table :: m.table[n].versions) == before[name := m.table[name].versions];
    assert old(ToolShapeOf(m)) == OrderedMap(m.keys, before);
  }

  twostate lemma PluginChangedAt(m: OrderedMap<string, Plugin>, new name: string)
    requires old(PluginsValid(m)) && name in m.table && m.table[name].Valid()
    requires forall p: Plugin {:trigger allocated(p)} :: old(allocated(p)) && p != m.table[name] ==> unchanged(p)
    ensures PluginsValid(m)
    ensures PluginShapeOf(m) == old(PluginShapeOf(m)).Put(name, m.table[name].versions)
  {
    var before := old(map n | n in m.table :: m.table[n].versions);
    forall n | n in m.table && n != name ensures unchanged(m.table[n]) && m.table[n].versions == before[n] {
      assert allocated(m.table[n]);
    }
    assert (map n | n in m.table :: m.table[n].versions) == before[name := m.table[name].versions];
    assert old(PluginShapeOf(m)) == OrderedMap(m.keys, before);
  }

  twostate lemma ToolRecordsKept(s: ToolShape)
    requires forall l: VersionRequirementList {:trigger allocated(l)} :: old(allocated(l)) ==> unchanged(l)
    requires forall v: ToolVersion {:trigger allocated(v)} :: old(allocated(v)) ==> unchanged(v)
    ensures ToolRecordsOf(s) == old(ToolRecordsOf(s))
  {
    forall l | l in ToolShapeLists(s) ensures unchanged(l) { assert allocated(l); }
    assert unchanged(ToolShapeObjects(s)) && unchanged(ToolShapeLists(s));
  }

  twostate lemma PluginRecordsKept(s: PluginShape)
    requires forall l: VersionRequirementList {:trigger allocated(l)} :: old(allocated(l)) ==> unchanged(l)
    ensures PluginRecordsOf(s) == old(PluginRecordsOf(s))
  {
    forall l | l in PluginShapeLists(s) ensures unchanged(l) { assert allocated(l); }
    assert unchanged(PluginShapeLists(s));
  }

  /** A step that changes nothing collected leaves the tools as they were. */
  twostate lemma ToolsWholeKept(m: OrderedMap<string, Tool>)
    requires forall u: Tool {:trigger allocated(u)} :: old(allocated(u)) ==> unchanged(u)
    requires forall l: VersionRequirementList {:trigger allocated(l)} :: old(allocated(l)) ==> unchanged(l)
    requires forall v: ToolVersion {:trigger allocated(v)} :: old(allocated(v)) ==> unchanged(v)
    ensures ToolsValid(m) == old(ToolsValid(m))
    ensures ToolRecordsOf(ToolShapeOf(m)) == old(ToolRecordsOf(ToolShapeOf(m)))
  {
    ToolShapeKept(m);
    ToolRecordsKept(old(ToolShapeOf(m)));
  }

  /**
   * Appending a version object to the aggregate stored under `name`, and nothing
   * else, appends that version's record to the aggregate's view.
   */
  twostate lemma ToolAppended(m: OrderedMap<string, Tool>, new name: string, new v: ToolVersion)
    requires old(ToolsValid(m)) && name in m.table && m.table[name].Valid()
    requires forall u: Tool {:trigger allocated(u)} :: old(allocated(u)) && u != m.table[name] ==> unchanged(u)
    requires forall l: VersionRequirementList {:trigger allocated(l)} :: old(allocated(l)) ==> unchanged(l)
    requires forall v: ToolVersion {:trigger allocated(v)} :: old(allocated(v)) ==> unchanged(v)
    requires v.version !in old(m.table[name].versions.table)
    requires m.table[name].versions == old(m.table[name].versions).Put(v.version, v)
    ensures ToolsValid(m)
    ensures ToolRecordsOf(ToolShapeOf(m))
         == old(ToolRecordsOf(ToolShapeOf(m))).Put(name, old(ToolRecordsOf(ToolShapeOf(m))).table[name].Put(v.version, v.Snapshot()))
  {
    ToolChangedAt(m, name);
    ToolRecordsKept(old(ToolShapeOf(m)));
    ToolRecordsAppend(old(ToolShapeOf(m)), name, v);
  }

  /** A step that changes nothing collected leaves the plugins as they were. */
  twostate lemma PluginsWholeKept(m: OrderedMap<string, Plugin>)
    requires forall u: Plugin {:trigger allocated(u)} :: old(allocated(u)) ==> unchanged(u)
    requires forall l: VersionRequirementList {:trigger allocated(l)} :: old(allocated(l)) ==> unchanged(l)
    ensures PluginsValid(m) == old(PluginsValid(m))
    ensures PluginRecordsOf(PluginShapeOf(m)) == old(PluginRecordsOf(PluginShapeOf(m)))
  {
    PluginShapeKept(m);
    PluginRecordsKept(old(PluginShapeOf(m)));
  }

  /**
   * Appending a version object to the aggregate stored under `name`, and nothing
   * else, appends that version's record to the aggregate's view.
   */
  twostate lemma PluginAppended(m: OrderedMap<string, Plugin>, new name: string, new v: PluginVersion)
    requires old(PluginsValid(m)) && name in m.table && m.table[name].Valid()
    requires forall u: Plugin {:trigger allocated(u)} :: old(allocated(u)) && u != m.table[name] ==> unchanged(u)
    requires forall l: VersionRequirementList {:trigger allocated(l)} :: old(allocated(l)) ==> unchanged(l)
    requires v.version !in old(m.table[name].versions.table)
    requires m.table[name].versions == old(m.table[name].versions).Put(v.version, v)
    ensures PluginsValid(m)
    ensures PluginRecordsOf(PluginShapeOf(m))
         == old(PluginRecordsOf(PluginShapeOf(m))).Put(name, old(PluginRecordsOf(PluginShapeOf(m))).table[name].Put(v.version, v.Snapshot()))
  {
    PluginChangedAt(m, name);
    PluginRecordsKept(old(PluginShapeOf(m)));
    PluginRecordsAppend(old(PluginShapeOf(m)), name, v);
  }

  /** A step that changes no tool, plugin, version object or requirement list leaves listed aggregates as they were. */
  twostate lemma ListedKept(ts: seq<Tool>, new ps: seq<Plugin>)
    requires forall t: Tool {:trigger allocated(t)} :: old(allocated(t)) ==> unchanged(t)
    requires forall p: Plugin {:trigger allocated(p)} :: old(allocated(p)) ==> unchanged(p)
    requires forall v: ToolVersion {:trigger allocated(v)} :: old(allocated(v)) ==> unchanged(v)
    requires forall l: VersionRequirementList {:trigger allocated(l)} :: old(allocated(l)) ==> unchanged(l)
    requires forall i :: 0 <= i < |ps| ==> old(allocated(ps[i]))
    ensures forall i :: 0 <= i < |ts| ==>
      ts[i].Valid() == old(ts[i].Valid()) && ToolAggregateOf(ts[i].versions) == old(ToolAggregateOf(ts[i].versions))
    ensures forall i :: 0 <= i < |ps| ==>
      ps[i].Valid() == old(ps[i].Valid()) && PluginAggregateOf(ps[i].versions) == old(PluginAggregateOf(ps[i].versions))
  {
    forall i | 0 <= i < |ts|
      ensures ts[i].Valid() == old(ts[i].Valid()) && ToolAggregateOf(ts[i].versions) == old(ToolAggregateOf(ts[i].versions))
    {
      assert allocated(ts[i]);
      var vs := ts[i].versions;
      forall v | v in ToolVersionObjects(vs) ensures unchanged(v) { assert allocated(v); }
      forall l | l in ToolVersionLists(vs) ensures unchanged(l) { assert allocated(l); }
    }
    forall i | 0 <= i < |ps|
      ensures ps[i].Valid() == old(ps[i].Valid()) && PluginAggregateOf(ps[i].versions) == old(PluginAggregateOf(ps[i].versions))
    {
      assert allocated(ps[i]);
      var vs := ps[i].versions;
      forall l | l in PluginVersionLists(vs) ensures unchanged(l) { assert allocated(l); }
    }
  }

  class RepositoryLoader {
    /** The file loader and the file system and URL functions. */
    const env: Environment
    var tools: OrderedMap<string, Tool>
    var plugins: OrderedMap<string, Plugin>

    ghost predicate Valid()
      reads this, ToolSet(tools), PluginSet(plugins)
    {
      ToolsValid(tools) && PluginsValid(plugins)
    }

    /** What has been collected, as records. */
    ghost function State(): LoadState
      reads this, ToolSet(tools), PluginSet(plugins)
      reads ToolShapeObjects(ToolShapeOf(tools)), ToolShapeLists(ToolShapeOf(tools)), PluginShapeLists(PluginShapeOf(plugins))
    {
      LoadState(ToolRecordsOf(ToolShapeOf(tools)), PluginRecordsOf(PluginShapeOf(plugins)))
    }

    /** `new RepositoryLoader($fileLoader)`: nothing collected yet. */
    constructor (env: Environment)
      ensures this.env == env && Valid() && State() == Initial()
    {
      this.env := env;
      tools := Empty();
      plugins := Empty();
    }

    /**
     * `$this->tools[$name]->addVersion($version)`: the version's record is
     * appended to that tool's aggregate, unless the version string is taken.
     */
    method AddToolVersion(name: string, v: ToolVersion) returns (res: Outcome<Error>)
      requires Valid() && name in tools.table && v.name == name
      modifies tools.table[name]
      ensures Valid() && tools == old(tools) && plugins == old(plugins)
      ensures res.Fail? <==> v.version in old(State()).tools.table[name].table
      ensures res.Fail? ==> res.error == VersionAlreadyAdded(v.version)
      ensures res.Fail? ==> State() == old(State())
      ensures res.Pass? ==>
        State() == LoadState(old(State()).tools.Put(name, old(State()).tools.table[name].Put(v.version, v.Snapshot())),
                             old(State()).plugins)
    {
      ghost var before := State();
      var t := tools.table[name];
      res := t.AddVersion(v);
      if res.Fail? {
        NothingCollectedChanged();
        return;
      }
      ToolAppended(tools, name, v);
      PluginsWholeKept(plugins);
      assert State().plugins == before.plugins;
      assert State().tools == before.tools.Put(name, before.tools.table[name].Put(v.version, v.Snapshot()));
    }

    /** `$this->plugins[$name]->addVersion($version)`, the same for plugins. */
    method AddPluginVersion(name: string, v: PluginVersion) returns (res: Outcome<Error>)
      requires Valid() && name in plugins.table && v.name == name
      modifies plugins.table[name]
      ensures Valid() && tools == old(tools) && plugins == old(plugins)
      ensures res.Fail? <==> v.version in old(State()).plugins.table[name].table
      ensures res.Fail? ==> res.error == VersionAlreadyAdded(v.version)
      ensures res.Fail? ==> State() == old(State())
      ensures res.Pass? ==>
        State() == LoadState(old(State()).tools,
                             old(State()).plugins.Put(name, old(State()).plugins.table[name].Put(v.version, v.Snapshot())))
    {
      ghost var before := State();
      var p := plugins.table[name];
      res := p.AddVersion(v);
      if res.Fail? {
        NothingCollectedChanged();
        return;
      }
      PluginAppended(plugins, name, v);
      ToolsWholeKept(tools);
      assert State().tools == before.tools;
      assert State().plugins == before.plugins.Put(name, before.plugins.table[name].Put(v.version, v.Snapshot()));
    }

    // ----- Building version objects -----

    /**
     * The inner loop of `loadToolRequirements` and `loadPluginRequirements`:
     * `add` of a new requirement for each entry of one category, in order; the
     * first conflict aborts with its error.
     */
    static method AddRequirements(list: VersionRequirementList, pairs: Option<Pairs>) returns (res: Outcome<Error>)
      requires list.Valid()
      modifies list
      ensures list.Valid()
      ensures AddAll(old(list.entries), RequirementsOf(pairs)) == if res.Pass? then Ok(list.entries) else Err(res.error)
    {
      var reqs := RequirementsOf(pairs);
      var i := 0;
      while i < |reqs|
        invariant 0 <= i <= |reqs| && list.Valid()
        invariant AddAll(old(list.entries), reqs) == AddAll(list.entries, reqs[i..])
      {
        assert reqs[i..][0] == reqs[i] && reqs[i..][1..] == reqs[i + 1..];
        var r := list.Add(NewRequirement(reqs[i].name, reqs[i].constraint));
        if r.Fail? {
          return Fail(r.error);
        }
        i := i + 1;
      }
      return Pass;
    }

    /** `loadToolRequirements`: a fresh bundle, its php list filled, then its composer list. */
    static method LoadToolRequirements(d: Option<ToolRequirementsData>) returns (res: Result<ToolRequirements, Error>)
      ensures res.Ok? ==> fresh(res.value) && fresh(res.value.php) && fresh(res.value.composer) && res.value.Valid()
      ensures ToolRequirementsLoaded(d)
           == if res.Ok? then Ok(ToolLists(res.value.php.entries, res.value.composer.entries)) else Err(res.error)
    {
      var result := new ToolRequirements();
      if NoToolRequirements(d) {
        return Ok(result);
      }
      var r := AddRequirements(result.php, d.value.php);
      if r.Fail? {
        return Err(r.error);
      }
      r := AddRequirements(result.composer, d.value.composer);
      if r.Fail? {
        return Err(r.error);
      }
      return Ok(result);
    }

    /** `loadPluginRequirements`: a fresh bundle, filled category by category. */
    static method LoadPluginRequirements(d: Option<PluginRequirementsData>) returns (res: Result<PluginRequirements, Error>)
      ensures res.Ok? ==> && fresh(res.value) && fresh(res.value.php) && fresh(res.value.tool)
                          && fresh(res.value.plugin) && fresh(res.value.composer) && res.value.Valid()
      ensures PluginRequirementsLoaded(d)
           == if res.Ok? then Ok(PluginLists(res.value.php.entries, res.value.tool.entries,
                                             res.value.plugin.entries, res.value.composer.entries))
              else Err(res.error)
    {
      var result := new PluginRequirements();
      if NoPluginRequirements(d) {
        return Ok(result);
      }
      var r := AddRequirements(result.php, d.value.php);
      if r.Fail? {
        return Err(r.error);
      }
      r := AddRequirements(result.tool, d.value.tool);
      if r.Fail? {
        return Err(r.error);
      }
      r := AddRequirements(result.plugin, d.value.plugin);
      if r.Fail? {
        return Err(r.error);
      }
      r := AddRequirements(result.composer, d.value.composer);
      if r.Fail? {
        return Err(r.error);
      }
      return Ok(result);
    }

    /**
     * The `new ToolVersion(...)` of `walkToolVersions`, its arguments evaluated
     * in order: the resolved url, the requirements, the hash, the signature.
     */
    method NewToolVersion(name: string, e: ToolEntry, baseDir: string) returns (res: Result<ToolVersion, Error>)
      ensures res.Ok? ==> && fresh(res.value) && fresh(res.value.requirements.php) && fresh(res.value.requirements.composer)
                          && res.value.Valid() && res.value.name == name
      ensures BuildToolRecord(env, name, e, baseDir) == if res.Ok? then Ok(res.value.Snapshot()) else Err(res.error)
    {
      var url := ValidateUrlOrFile(env, e.url, baseDir);
      if url.Err? {
        return Err(url.error);
      }
      var reqs := LoadToolRequirements(e.requirements);
      if reqs.Err? {
        return Err(reqs.error);
      }
      var hash := ToolHashLoaded(e.checksum);
      if hash.Err? {
        return Err(hash.error);
      }
      var sig := OptionalLocation(env, e.signature, baseDir);
      if sig.Err? {
        return Err(sig.error);
      }
      var v := new ToolVersion(name, e.version, Some(url.value), reqs.value, hash.value, sig.value);
      return Ok(v);
    }

    /**
     * `loadPluginVersion`: a php-file entry with a url becomes a php-file
     * version (requirements, file, signature and hash evaluated in that order,
     * then the api version checked); any other type is an error.
     */
    method LoadPluginVersion(e: PluginEntry, name: string, baseDir: string) returns (res: Result<PluginVersion, Error>)
      ensures res.Ok? ==> && fresh(res.value) && fresh(res.value.requirements.php) && fresh(res.value.requirements.tool)
                          && fresh(res.value.requirements.plugin) && fresh(res.value.requirements.composer)
                          && res.value.Valid() && res.value.name == name
      ensures BuildPluginRecord(env, name, e, baseDir) == if res.Ok? then Ok(res.value.Snapshot()) else Err(res.error)
    {
      if e.pluginType != "php-file" {
        return Err(UnexpectedPluginType(e.pluginType));
      }
      if e.url.None? {
        return Err(MissingPluginUrl(name));
      }
      var reqs := LoadPluginRequirements(e.requirements);
      if reqs.Err? {
        return Err(reqs.error);
      }
      var file := ValidateUrlOrFile(env, e.url.value, baseDir);
      if file.Err? {
        return Err(file.error);
      }
      var sig := OptionalLocation(env, e.signature, baseDir);
      if sig.Err? {
        return Err(sig.error);
      }
      var hash := PluginHashLoaded(e.checksum);
      if hash.Err? {
        return Err(hash.error);
      }
      res := PluginVersion.CreatePhpFile(name, e.version, e.apiVersion, reqs.value, file.value, sig.value, hash.value);
    }

    /** Building a version object leaves what was collected as it was. */
    twostate lemma NothingCollectedChanged()
      requires forall l: VersionRequirementList {:trigger allocated(l)} :: old(allocated(l)) ==> unchanged(l)
      requires forall v: ToolVersion {:trigger allocated(v)} :: old(allocated(v)) ==> unchanged(v)
      requires forall t: Tool {:trigger allocated(t)} :: old(allocated(t)) ==> unchanged(t)
      requires forall p: Plugin {:trigger allocated(p)} :: old(allocated(p)) ==> unchanged(p)
      requires unchanged(this)
      ensures State() == old(State())
    {
      ToolShapeKept(tools);
      ToolRecordsKept(ToolShapeOf(tools));
      PluginShapeKept(plugins);
      PluginRecordsKept(PluginShapeOf(plugins));
    }

    // ----- Walking the manifest -----

    /** The first part of `walkToolVersions`: a new, empty tool on first sight of the name. */
    method OpenTool(name: string)
      requires Valid()
      modifies this
      ensures Valid() && plugins == old(plugins) && name in tools.table
      ensures forall n :: n in tools.table ==> (n in old(tools.table) && tools.table[n] == old(tools.table)[n]) || fresh(tools.table[n])
      ensures State() == LoadState(if name in old(State()).tools.table then old(State()).tools
                                   else old(State()).tools.Put(name, Empty()), old(State()).plugins)
    {
      ghost var before := State();
      if name !in tools.table {
        assert name !in before.tools.table;
        ghost var shape := ToolShapeOf(tools);
        var t := new Tool(name);
        tools := tools.Put(name, t);
        ToolShapeOfNew(old(tools), name, t);
        ToolRecordsKept(shape);
        ToolRecordsNew(shape, name);
        PluginShapeKept(plugins);
        PluginRecordsKept(PluginShapeOf(plugins));
      } else {
        assert name in before.tools.table;
      }
    }

    /** The loop body of `walkToolVersions`: build one entry's version and add it to the tool. */
    method AddToolEntry(name: string, e: ToolEntry, baseDir: string) returns (res: Outcome<Error>)
      requires Valid() && name in tools.table
      modifies tools.table[name]
      ensures Valid() && tools == old(tools) && plugins == old(plugins)
      ensures AddToolRecord(old(State()).tools, name, BuildToolRecord(env, name, e, baseDir))
           == if res.Pass? then Ok(State().tools) else Err(res.error)
      ensures State().plugins == old(State().plugins)
    {
      var v := NewToolVersion(name, e, baseDir);
      NothingCollectedChanged();
      if v.Err? {
        return Fail(v.error);
      }
      ghost var rec := v.value.Snapshot();
      res := AddToolVersion(name, v.value);
      assert v.value.Snapshot() == rec;
    }

    /** The loop of `walkToolVersions`: each entry is built and added to the tool in turn. */
    method AddToolEntries(name: string, entries: seq<ToolEntry>, baseDir: string) returns (res: Outcome<Error>)
      requires Valid() && name in tools.table
      modifies tools.table[name]
      ensures Valid() && tools == old(tools) && plugins == old(plugins)
      ensures AddToolVersions(old(State()).tools, name, BuildToolRecords(env, name, entries, baseDir))
           == if res.Pass? then Ok(State().tools) else Err(res.error)
      ensures State().plugins == old(State().plugins)
    {
      ghost var built := BuildToolRecords(env, name, entries, baseDir);
      var i := 0;
      while i < |entries|
        invariant 0 <= i <= |entries|
        invariant Valid() && tools == old(tools) && plugins == old(plugins)
        invariant AddToolVersions(old(State()).tools, name, built) == AddToolVersions(State().tools, name, built[i..])
        invariant State().plugins == old(State().plugins)
      {
        ghost var before := State().tools;
        AddToolVersionsStep(before, name, built[i..]);
        assert built[i..][0] == built[i] && built[i..][1..] == built[i + 1..];
        var r := AddToolEntry(name, entries[i], baseDir);
        if r.Fail? {
          return r;
        }
        i := i + 1;
      }
      return Pass;
    }

    /**
     * `walkToolVersions`: the tool is created on first sight of its name, then
     * each entry is built and added in turn; the first failure stops the walk.
     */
    method WalkToolVersions(name: string, entries: seq<ToolEntry>, baseDir: string) returns (res: Outcome<Error>)
      requires Valid()
      modifies this, ToolSet(tools)
      ensures Valid() && plugins == old(plugins)
      ensures forall n :: n in tools.table ==> (n in old(tools.table) && tools.table[n] == old(tools.table)[n]) || fresh(tools.table[n])
      ensures LoaderSpec.WalkToolVersions(env, old(State()).tools, name, entries, baseDir)
           == if res.Pass? then Ok(State().tools) else Err(res.error)
      ensures State().plugins == old(State().plugins)
    {
      OpenTool(name);
      res := AddToolEntries(name, entries, baseDir);
    }

    /** The first part of `walkPluginVersions`: a new, empty plugin on first sight of the name. */
    method OpenPlugin(name: string)
      requires Valid()
      modifies this
      ensures Valid() && tools == old(tools) && name in plugins.table
      ensures forall n :: n in plugins.table ==> (n in old(plugins.table) && plugins.table[n] == old(plugins.table)[n]) || fresh(plugins.table[n])
      ensures State() == LoadState(old(State()).tools,
                                   if name in old(State()).plugins.table then old(State()).plugins
                                   else old(State()).plugins.Put(name, Empty()))
    {
      ghost var before := State();
      if name !in plugins.table {
        assert name !in before.plugins.table;
        ghost var shape := PluginShapeOf(plugins);
        var p := new Plugin(name);
        plugins := plugins.Put(name, p);
        PluginShapeOfNew(old(plugins), name, p);
        PluginRecordsKept(shape);
        PluginRecordsNew(shape, name);
        ToolShapeKept(tools);
        ToolRecordsKept(ToolShapeOf(tools));
      } else {
        assert name in before.plugins.table;
      }
    }

    /** The loop body of `walkPluginVersions`: load one entry's version and add it to the plugin. */
    method AddPluginEntry(name: string, e: PluginEntry, baseDir: string) returns (res: Outcome<Error>)
      requires Valid() && name in plugins.table
      modifies plugins.table[name]
      ensures Valid() && tools == old(tools) && plugins == old(plugins)
      ensures AddPluginRecord(old(State()).plugins, name, BuildPluginRecord(env, name, e, baseDir))
           == if res.Pass? then Ok(State().plugins) else Err(res.error)
      ensures State().tools == old(State().tools)
    {
      var v := LoadPluginVersion(e, name, baseDir);
      NothingCollectedChanged();
      if v.Err? {
        return Fail(v.error);
      }
      ghost var rec := v.value.Snapshot();
      res := AddPluginVersion(name, v.value);
      assert v.value.Snapshot() == rec;
    }

    /** The loop of `walkPluginVersions`: each entry is loaded and added to the plugin in turn. */
    method AddPluginEntries(name: string, entries: seq<PluginEntry>, baseDir: string) returns (res: Outcome<Error>)
      requires Valid() && name in plugins.table
      modifies plugins.table[name]
      ensures Valid() && tools == old(tools) && plugins == old(plugins)
      ensures AddPluginVersions(old(State()).plugins, name, BuildPluginRecords(env, name, entries, baseDir))
           == if res.Pass? then Ok(State().plugins) else Err(res.error)
      ensures State().tools == old(State().tools)
    {
      ghost var built := BuildPluginRecords(env, name, entries, baseDir);
      var i := 0;
      while i < |entries|
        invariant 0 <= i <= |entries|
        invariant Valid() && tools == old(tools) && plugins == old(plugins)
        invariant AddPluginVersions(old(State()).plugins, name, built) == AddPluginVersions(State().plugins, name, built[i..])
        invariant State().tools == old(State().tools)
      {
        ghost var before := State().plugins;
        AddPluginVersionsStep(before, name, built[i..]);
        assert built[i..][0] == built[i] && built[i..][1..] == built[i + 1..];
        var r := AddPluginEntry(name, entries[i], baseDir);
        if r.Fail? {
          return r;
        }
        i := i + 1;
      }
      return Pass;
    }

    /**
     * `walkPluginVersions`: the plugin is created on first sight of its name,
     * then each entry is loaded and added in turn; the first failure stops the walk.
     */
    method WalkPluginVersions(name: string, entries: seq<PluginEntry>, baseDir: string) returns (res: Outcome<Error>)
      requires Valid()
      modifies this, PluginSet(plugins)
      ensures Valid() && tools == old(tools)
      ensures forall n :: n in plugins.table ==> (n in old(plugins.table) && plugins.table[n] == old(plugins.table)[n]) || fresh(plugins.table[n])
      ensures LoaderSpec.WalkPluginVersions(env, old(State()).plugins, name, entries, baseDir)
           == if res.Pass? then Ok(State().plugins) else Err(res.error)
      ensures State().tools == old(State().tools)
    {
      OpenPlugin(name);
      res := AddPluginEntries(name, entries, baseDir);
    }

    /** `walkTools`: the versions of each named tool, in document order. */
    method WalkTools(list: seq<(string, seq<ToolEntry>)>, baseDir: string) returns (res: Outcome<Error>)
      requires Valid()
      modifies this, ToolSet(tools)
      ensures Valid() && plugins == old(plugins)
      ensures forall n :: n in tools.table ==> (n in old(tools.table) && tools.table[n] == old(tools.table)[n]) || fresh(tools.table[n])
      ensures LoaderSpec.WalkTools(env, old(State()).tools, list, baseDir)
           == if res.Pass? then Ok(State().tools) else Err(res.error)
      ensures State().plugins == old(State().plugins)
    {
      ghost var walked := LoaderSpec.WalkTools(env, State().tools, list, baseDir);
      ghost var kept := State().plugins;
      var i := 0;
      while i < |list|
        invariant 0 <= i <= |list|
        invariant Valid() && plugins == old(plugins)
        invariant forall n :: n in tools.table ==> (n in old(tools.table) && tools.table[n] == old(tools.table)[n]) || fresh(tools.table[n])
        invariant walked == LoaderSpec.WalkTools(env, State().tools, list[i..], baseDir)
        invariant State().plugins == kept
      {
        ghost var cur := State().tools;
        WalkToolsStep(env, cur, list[i..], baseDir);
        assert list[i..][0] == list[i] && list[i..][1..] == list[i + 1..];
        var r := WalkToolVersions(list[i].0, list[i].1, baseDir);
        ghost var first := LoaderSpec.WalkToolVersions(env, cur, list[i].0, list[i].1, baseDir);
        if r.Fail? {
          assert first == Err(r.error);
          return r;
        }
        assert first == Ok(State().tools);
        i := i + 1;
      }
      return Pass;
    }

    /** `walkPlugins`: the versions of each named plugin, in document order. */
    method WalkPlugins(list: seq<(string, seq<PluginEntry>)>, baseDir: string) returns (res: Outcome<Error>)
      requires Valid()
      modifies this, PluginSet(plugins)
      ensures Valid() && tools == old(tools)
      ensures forall n :: n in plugins.table ==> (n in old(plugins.table) && plugins.table[n] == old(plugins.table)[n]) || fresh(plugins.table[n])
      ensures LoaderSpec.WalkPlugins(env, old(State()).plugins, list, baseDir)
           == if res.Pass? then Ok(State().plugins) else Err(res.error)
      ensures State().tools == old(State().tools)
    {
      ghost var walked := LoaderSpec.WalkPlugins(env, State().plugins, list, baseDir);
      ghost var kept := State().tools;
      var i := 0;
      while i < |list|
        invariant 0 <= i <= |list|
        invariant Valid() && tools == old(tools)
        invariant forall n :: n in plugins.table ==> (n in old(plugins.table) && plugins.table[n] == old(plugins.table)[n]) || fresh(plugins.table[n])
        invariant walked == LoaderSpec.WalkPlugins(env, State().plugins, list[i..], baseDir)
        invariant State().tools == kept
      {
        ghost var cur := State().plugins;
        WalkPluginsStep(env, cur, list[i..], baseDir);
        assert list[i..][0] == list[i] && list[i..][1..] == list[i + 1..];
        var r := WalkPluginVersions(list[i].0, list[i].1, baseDir);
        ghost var first := LoaderSpec.WalkPluginVersions(env, cur, list[i].0, list[i].1, baseDir);
        if r.Fail? {
          assert first == Err(r.error);
          return r;
        }
        assert first == Ok(State().plugins);
        i := i + 1;
      }
      return Pass;
    }

    // ----- Reading files -----

    /** The part of `readFile` that walks the file's tools, then its plugins, each only when present. */
    method WalkSections(contents: Manifest, baseDir: string) returns (res: Outcome<Error>)
      requires Valid()
      modifies this, ToolSet(tools), PluginSet(plugins)
      ensures Valid()
      ensures forall n :: n in tools.table ==> (n in old(tools.table) && tools.table[n] == old(tools.table)[n]) || fresh(tools.table[n])
      ensures forall n :: n in plugins.table ==> (n in old(plugins.table) && plugins.table[n] == old(plugins.table)[n]) || fresh(plugins.table[n])
      ensures LoaderSpec.WalkSections(env, old(State()), contents, baseDir)
           == if res.Pass? then Ok(State()) else Err(res.error)
    {
      if contents.tools.Some? {
        var r := WalkTools(contents.tools.value, baseDir);
        if r.Fail? {
          return r;
        }
      }
      if contents.plugins.Some? {
        var r := WalkPlugins(contents.plugins.value, baseDir);
        if r.Fail? {
          return r;
        }
      }
      return Pass;
    }

    /**
     * `readFile`: load the file through the file loader, walk its sections,
     * then read each of its includes, every location relative to the file's
     * directory. `fuel` bounds the include depth.
     */
    method ReadFile(fuel: nat, file: string, checksum: Option<Checksum>) returns (res: Outcome<Error>)
      requires Valid()
      modifies this, ToolSet(tools), PluginSet(plugins)
      ensures Valid()
      ensures forall n :: n in tools.table ==> (n in old(tools.table) && tools.table[n] == old(tools.table)[n]) || fresh(tools.table[n])
      ensures forall n :: n in plugins.table ==> (n in old(plugins.table) && plugins.table[n] == old(plugins.table)[n]) || fresh(plugins.table[n])
      ensures LoaderSpec.ReadFile(env, fuel, old(State()), file, checksum)
           == if res.Pass? then Ok(State()) else Err(res.error)
      decreases fuel, 1
    {
      if fuel == 0 {
        return Fail(IncludeDepthExceeded(file));
      }
      var contents := env.load(file, checksum);
      if contents.Err? {
        return Fail(contents.error);
      }
      var baseDir := env.dirname(file);
      ReadFileStep(env, fuel, State(), file, checksum);
      res := WalkContents(fuel - 1, contents.value, baseDir);
    }

    /**
     * The rest of `readFile`: walk the tools, the plugins and the includes of
     * one loaded file, each only when present; `fuel` is the depth left for includes.
     */
    method WalkContents(fuel: nat, contents: Manifest, baseDir: string) returns (res: Outcome<Error>)
      requires Valid()
      modifies this, ToolSet(tools), PluginSet(plugins)
      ensures Valid()
      ensures forall n :: n in tools.table ==> (n in old(tools.table) && tools.table[n] == old(tools.table)[n]) || fresh(tools.table[n])
      ensures forall n :: n in plugins.table ==> (n in old(plugins.table) && plugins.table[n] == old(plugins.table)[n]) || fresh(plugins.table[n])
      ensures LoaderSpec.WalkContents(env, fuel, old(State()), contents, baseDir)
           == if res.Pass? then Ok(State()) else Err(res.error)
      decreases fuel, 4
    {
      WalkContentsStep(env, fuel, State(), contents, baseDir);
      res := WalkSections(contents, baseDir);
      if res.Fail? || contents.includes.None? {
        return;
      }
      res := WalkIncludeFiles(fuel, contents.includes.value, baseDir);
    }

    /** The body of the `walkIncludeFiles` loop: `readFile` of the include's resolved location. */
    method ReadInclude(fuel: nat, entry: IncludeEntry, baseDir: string) returns (res: Outcome<Error>)
      requires Valid()
      modifies this, ToolSet(tools), PluginSet(plugins)
      ensures Valid()
      ensures forall n :: n in tools.table ==> (n in old(tools.table) && tools.table[n] == old(tools.table)[n]) || fresh(tools.table[n])
      ensures forall n :: n in plugins.table ==> (n in old(plugins.table) && plugins.table[n] == old(plugins.table)[n]) || fresh(plugins.table[n])
      ensures LoaderSpec.ReadInclude(env, fuel, old(State()), entry, baseDir)
           == if res.Pass? then Ok(State()) else Err(res.error)
      decreases fuel, 2
    {
      var url := ValidateUrlOrFile(env, entry.url, baseDir);
      if url.Err? {
        return Fail(url.error);
      }
      res := ReadFile(fuel, url.value, entry.checksum);
    }

    /** `walkIncludeFiles`: each include's location resolved, then the file read into the same collection. */
    method WalkIncludeFiles(fuel: nat, includes: seq<IncludeEntry>, baseDir: string) returns (res: Outcome<Error>)
      requires Valid()
      modifies this, ToolSet(tools), PluginSet(plugins)
      ensures Valid()
      ensures forall n :: n in tools.table ==> (n in old(tools.table) && tools.table[n] == old(tools.table)[n]) || fresh(tools.table[n])
      ensures forall n :: n in plugins.table ==> (n in old(plugins.table) && plugins.table[n] == old(plugins.table)[n]) || fresh(plugins.table[n])
      ensures LoaderSpec.WalkIncludeFiles(env, fuel, old(State()), includes, baseDir)
           == if res.Pass? then Ok(State()) else Err(res.error)
      decreases fuel, 3
    {
      ghost var walked := LoaderSpec.WalkIncludeFiles(env, fuel, State(), includes, baseDir);
      var i := 0;
      while i < |includes|
        invariant 0 <= i <= |includes|
        invariant Valid()
        invariant forall n :: n in tools.table ==> (n in old(tools.table) && tools.table[n] == old(tools.table)[n]) || fresh(tools.table[n])
        invariant forall n :: n in plugins.table ==> (n in old(plugins.table) && plugins.table[n] == old(plugins.table)[n]) || fresh(plugins.table[n])
        invariant walked == LoaderSpec.WalkIncludeFiles(env, fuel, State(), includes[i..], baseDir)
      {
        ghost var cur := State();
        WalkIncludeFilesStep(env, fuel, cur, includes[i..], baseDir);
        assert includes[i..][0] == includes[i] && includes[i..][1..] == includes[i + 1..];
        var r := ReadInclude(fuel, includes[i], baseDir);
        ghost var read := LoaderSpec.ReadInclude(env, fuel, cur, includes[i], baseDir);
        if r.Fail? {
          assert read == Err(r.error);
          return r;
        }
        assert read == Ok(State());
        i := i + 1;
      }
      return Pass;
    }

    // ----- Entry points -----

    /** Listing the collected tools in order gives, tool by tool, the aggregates of the tools view. */
    lemma ToolsListed()
      requires Valid()
      ensures |tools.Values()| == |State().tools.keys|
      ensures forall i :: 0 <= i < |tools.Values()| ==>
        && tools.Values()[i].name == State().tools.keys[i] && State().tools.keys[i] in State().tools.table
        && tools.Values()[i].Valid()
        && (forall j :: i < j < |tools.Values()| ==> tools.Values()[i].name != tools.Values()[j].name)
        && ToolAggregateOf(tools.Values()[i].versions) == State().tools.table[State().tools.keys[i]]
    {
    }

    /** Listing the collected plugins in order gives, plugin by plugin, the aggregates of the plugins view. */
    lemma PluginsListed()
      requires Valid()
      ensures |plugins.Values()| == |State().plugins.keys|
      ensures forall i :: 0 <= i < |plugins.Values()| ==>
        && plugins.Values()[i].name == State().plugins.keys[i] && State().plugins.keys[i] in State().plugins.table
        && plugins.Values()[i].Valid()
        && (forall j :: i < j < |plugins.Values()| ==> plugins.Values()[i].name != plugins.Values()[j].name)
        && PluginAggregateOf(plugins.Values()[i].versions) == State().plugins.table[State().plugins.keys[i]]
    {
    }

    /**
     * `loadData`: read the file into a fresh loader; nothing when it collected
     * no tool and no plugin, else its tools and its plugins in first-sight order.
     */
    static method LoadData(env: Environment, fuel: nat, file: string, checksum: Option<Checksum>)
      returns (res: Result<Option<(seq<Tool>, seq<Plugin>)>, Error>)
      ensures res.Err? ==> LoaderSpec.LoadData(env, fuel, file, checksum) == Err(res.error)
      ensures res.Ok? ==> LoaderSpec.LoadData(env, fuel, file, checksum).Ok?
      ensures res.Ok? ==> (res.value.None? <==> LoaderSpec.LoadData(env, fuel, file, checksum).value.None?)
      ensures res.Ok? && res.value.Some? ==>
        var st := LoaderSpec.LoadData(env, fuel, file, checksum).value.value;
        var ts := res.value.value.0;
        var ps := res.value.value.1;
        && |ts| == |st.tools.keys| && |ps| == |st.plugins.keys|
        && (forall i, j :: 0 <= i < j < |ts| ==> ts[i].name != ts[j].name)
        && (forall i, j :: 0 <= i < j < |ps| ==> ps[i].name != ps[j].name)
        && (forall i :: 0 <= i < |ts| ==>
              ts[i].name == st.tools.keys[i] && ts[i].name in st.tools.table && ts[i].Valid()
              && ToolAggregateOf(ts[i].versions) == st.tools.table[ts[i].name])
        && (forall i :: 0 <= i < |ps| ==>
              ps[i].name == st.plugins.keys[i] && ps[i].name in st.plugins.table && ps[i].Valid()
              && PluginAggregateOf(ps[i].versions) == st.plugins.table[ps[i].name])
    {
      var instance := new RepositoryLoader(env);
      var r := instance.ReadFile(fuel, file, checksum);
      if r.Fail? {
        return Err(r.error);
      }
      instance.ToolsListed();
      instance.PluginsListed();
      var ts := instance.tools.Values();
      var ps := instance.plugins.Values();
      if ts == [] && ps == [] {
        return Ok(None);
      }
      return Ok(Some((ts, ps)));
    }

    /** The first loop of `loadRepository`: plugins of distinct names, added to a repository without plugins. */
    static method AddPlugins(repository: Repository, ps: seq<Plugin>)
      requires repository.Valid() && repository.IteratePlugins() == []
      requires forall i, j :: 0 <= i < j < |ps| ==> ps[i].name != ps[j].name
      modifies repository
      ensures repository.Valid() && repository.IteratePlugins() == ps
      ensures repository.IterateTools() == old(repository.IterateTools())
    {
      var i := 0;
      while i < |ps|
        invariant 0 <= i <= |ps|
        invariant repository.Valid() && repository.IteratePlugins() == ps[..i]
        invariant repository.IterateTools() == old(repository.IterateTools())
      {
        assert !repository.HasPlugin(ps[i].name);
        var _ := repository.AddPlugin(ps[i]);
        assert ps[..i + 1] == ps[..i] + [ps[i]];
        i := i + 1;
      }
      assert ps[..|ps|] == ps;
    }

    /** The second loop of `loadRepository`: tools of distinct names, added to a repository without tools. */
    static method AddTools(repository: Repository, ts: seq<Tool>)
      requires repository.Valid() && repository.IterateTools() == []
      requires forall i, j :: 0 <= i < j < |ts| ==> ts[i].name != ts[j].name
      modifies repository
      ensures repository.Valid() && repository.IterateTools() == ts
      ensures repository.IteratePlugins() == old(repository.IteratePlugins())
    {
      var i := 0;
      while i < |ts|
        invariant 0 <= i <= |ts|
        invariant repository.Valid() && repository.IterateTools() == ts[..i]
        invariant repository.IteratePlugins() == old(repository.IteratePlugins())
      {
        assert !repository.HasTool(ts[i].name);
        var _ := repository.AddTool(ts[i]);
        assert ts[..i + 1] == ts[..i] + [ts[i]];
        i := i + 1;
      }
      assert ts[..|ts|] == ts;
    }

    /**
     * `loadRepository`: a new repository holding what `loadData` returns, the
     * plugins added first, then the tools. Their names are distinct, so no
     * addition is refused.
     */
    static method LoadRepository(env: Environment, fuel: nat, file: string, checksum: Option<Checksum>)
      returns (res: Result<Repository, Error>)
      ensures res.Err? ==> LoaderSpec.LoadData(env, fuel, file, checksum) == Err(res.error)
      ensures res.Ok? ==> LoaderSpec.LoadData(env, fuel, file, checksum).Ok? && fresh(res.value) && res.value.Valid()
      ensures res.Ok? && LoaderSpec.LoadData(env, fuel, file, checksum).value.None? ==>
        res.value.IterateTools() == [] && res.value.IteratePlugins() == []
      ensures res.Ok? && LoaderSpec.LoadData(env, fuel, file, checksum).value.Some? ==>
        var st := LoaderSpec.LoadData(env, fuel, file, checksum).value.value;
        var ts := res.value.IterateTools();
        var ps := res.value.IteratePlugins();
        && |ts| == |st.tools.keys| && |ps| == |st.plugins.keys|
        && (forall i :: 0 <= i < |ts| ==>
              ts[i].name == st.tools.keys[i] && ts[i].name in st.tools.table && ts[i].Valid()
              && ToolAggregateOf(ts[i].versions) == st.tools.table[ts[i].name])
        && (forall i :: 0 <= i < |ps| ==>
              ps[i].name == st.plugins.keys[i] && ps[i].name in st.plugins.table && ps[i].Valid()
              && PluginAggregateOf(ps[i].versions) == st.plugins.table[ps[i].name])
    {
      var repository := new Repository();
      var data := LoadData(env, fuel, file, checksum);
      if data.Err? {
        return Err(data.error);
      }
      if data.value.None? {
        return Ok(repository);
      }
      var ts := data.value.value.0;
      var ps := data.value.value.1;
      label loaded:
      AddPlugins(repository, ps);
      AddTools(repository, ts);
      ListedKept@loaded(ts, ps);
      return Ok(repository);
    }
  }
}
