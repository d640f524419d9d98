/**
 * What the manifest walk guarantees: collected aggregates only grow, in
 * first-sight order; an aggregate's versions are its old versions followed by
 * the entries' versions in document order; a version string seen twice for the
 * same name aborts the load; more include depth than needed changes nothing.
 */
module LoaderProperties {
  import opened Wrappers
  import opened Errors
  import opened OrderedMaps
  import opened ToolVersions
  import opened PluginVersions
  import opened Manifests
  import opened Locations
  import opened LoaderSpec

  /**
   * `b` holds every aggregate of `a`, with names in the same order first, and
   * each aggregate of `a` extended by appending: no version dropped or changed.
   */
  ghost predicate Extends<V>(a: OrderedMap<string, OrderedMap<string, V>>, b: OrderedMap<string, OrderedMap<string, V>>) {
    && a.keys <= b.keys
    && forall n :: n in a.table ==>
         && n in b.table
         && a.table[n].keys <= b.table[n].keys
         && forall v :: v in a.table[n].table ==> v in b.table[n].table && b.table[n].table[v] == a.table[n].table[v]
  }

  lemma ExtendsReflexive<V>(a: OrderedMap<string, OrderedMap<string, V>>)
    ensures Extends(a, a)
  {
  }

  lemma ExtendsTransitive<V>(a: OrderedMap<string, OrderedMap<string, V>>, b: OrderedMap<string, OrderedMap<string, V>>,
                             c: OrderedMap<string, OrderedMap<string, V>>)
    requires Extends(a, b) && Extends(b, c)
    ensures Extends(a, c)
  {
  }

  /** An aggregate is a valid map keyed by its records' version strings. */
  ghost predicate ToolAggregateWellFormed(agg: ToolAggregate) {
    agg.Valid() && forall v :: v in agg.table ==> agg.table[v].version == v
  }

  ghost predicate PluginAggregateWellFormed(agg: PluginAggregate) {
    agg.Valid() && forall v :: v in agg.table ==> agg.table[v].version == v
  }

  /** Every aggregate is well formed. */
  ghost predicate ToolsWellFormed(s: ToolsState) {
    s.Valid() && forall n :: n in s.table ==> ToolAggregateWellFormed(s.table[n])
  }

  ghost predicate PluginsWellFormed(s: PluginsState) {
    s.Valid() && forall n :: n in s.table ==> PluginAggregateWellFormed(s.table[n])
  }

  /** The versions of a tool's entries, in document order. */
  function ToolVersionsOf(entries: seq<ToolEntry>): (r: seq<string>)
    ensures |r| == |entries| && forall i :: 0 <= i < |entries| ==> r[i] == entries[i].version
  {
    seq(|entries|, i requires 0 <= i < |entries| => entries[i].version)
  }

  function PluginVersionsOf(entries: seq<PluginEntry>): (r: seq<string>)
    ensures |r| == |entries| && forall i :: 0 <= i < |entries| ==> r[i] == entries[i].version
  {
    seq(|entries|, i requires 0 <= i < |entries| => entries[i].version)
  }

  /**
   * `b` is `a` with the versions `added` appended, in order, to the aggregate
   * `name`: the same names, every other aggregate as it was, and no version of
   * `name` dropped or changed.
   */
  ghost predicate AppendedTo<V>(a: OrderedMap<string, OrderedMap<string, V>>, b: OrderedMap<string, OrderedMap<string, V>>,
                                name: string, added: seq<string>) {
    && name in a.table && name in b.table
    && b.keys == a.keys
    && (forall n :: n in a.table <==> n in b.table)
    && (forall n :: n in a.table && n != name ==> b.table[n] == a.table[n])
    && b.table[name].keys == a.table[name].keys + added
    && (forall v :: v in a.table[name].table ==> v in b.table[name].table && b.table[name].table[v] == a.table[name].table[v])
  }

  lemma AppendedExtends<V>(a: OrderedMap<string, OrderedMap<string, V>>, b: OrderedMap<string, OrderedMap<string, V>>,
                           name: string, added: seq<string>)
    requires AppendedTo(a, b, name, added)
    ensures Extends(a, b)
  {
  }

  lemma AppendedTransitive<V>(a: OrderedMap<string, OrderedMap<string, V>>, b: OrderedMap<string, OrderedMap<string, V>>,
                              c: OrderedMap<string, OrderedMap<string, V>>, name: string, x: seq<string>, y: seq<string>)
    requires AppendedTo(a, b, name, x) && AppendedTo(b, c, name, y)
    ensures AppendedTo(a, c, name, x + y)
  {
  }

  /** Appending a new version to one aggregate. */
  lemma PutVersionAppends<V>(s: OrderedMap<string, OrderedMap<string, V>>, name: string, k: string, v: V)
    requires s.Valid() && name in s.table && s.table[name].Valid() && k !in s.table[name].table
    ensures AppendedTo(s, s.Put(name, s.table[name].Put(k, v)), name, [k])
  {
    PutExistingInPlace(s, name, s.table[name].Put(k, v));
  }

  lemma PutToolVersionWellFormed(s: ToolsState, name: string, rec: ToolRecord)
    requires ToolsWellFormed(s) && name in s.table
    ensures ToolsWellFormed(s.Put(name, s.table[name].Put(rec.version, rec)))
  {
    var s' := s.Put(name, s.table[name].Put(rec.version, rec));
    assert ToolAggregateWellFormed(s'.table[name]);
  }

  lemma PutPluginVersionWellFormed(s: PluginsState, name: string, rec: PluginRecord)
    requires PluginsWellFormed(s) && name in s.table
    ensures PluginsWellFormed(s.Put(name, s.table[name].Put(rec.version, rec)))
  {
    var s' := s.Put(name, s.table[name].Put(rec.version, rec));
    assert PluginAggregateWellFormed(s'.table[name]);
  }

  /** The versions of built tool records, in order (a failed build contributes nothing usable). */
  function ToolRecordVersions(built: seq<Result<ToolRecord, Error>>): (r: seq<string>)
    ensures |r| == |built|
    ensures forall i :: 0 <= i < |built| && built[i].Ok? ==> r[i] == built[i].value.version
  {
    if built == [] then []
    else [if built[0].Ok? then built[0].value.version else ""] + ToolRecordVersions(built[1..])
  }

  /** Adding succeeds only when every record was built. */
  lemma {:induction false} AddToolVersionsBuiltAll(tools: ToolsState, name: string, built: seq<Result<ToolRecord, Error>>)
    requires name in tools.table && AddToolVersions(tools, name, built).Ok?
    ensures forall i :: 0 <= i < |built| ==> built[i].Ok?
    decreases |built|
  {
    if built != [] {
      var rec := built[0].value;
      AddToolVersionsBuiltAll(tools.Put(name, tools.table[name].Put(rec.version, rec)), name, built[1..]);
      assert forall i :: 1 <= i < |built| ==> built[i] == built[1..][i - 1];
    }
  }

  /**
   * Adding built tool records succeeds only when every record was built, and
   * then by appending their versions, in order, to that tool's aggregate; the
   * names and every other aggregate stay as they were.
   */
  lemma {:induction false} AddToolVersionsAppends(tools: ToolsState, name: string,
                                                  built: seq<Result<ToolRecord, Error>>, r: ToolsState)
    requires ToolsWellFormed(tools) && name in tools.table
    requires AddToolVersions(tools, name, built) == Ok(r)
    ensures ToolsWellFormed(r) && AppendedTo(tools, r, name, ToolRecordVersions(built))
    decreases |built|
  {
    if built != [] {
      var rec := built[0].value;
      var next := tools.Put(name, tools.table[name].Put(rec.version, rec));
      PutVersionAppends(tools, name, rec.version, rec);
      PutToolVersionWellFormed(tools, name, rec);
      AddToolVersionsAppends(next, name, built[1..], r);
      AppendedTransitive(tools, next, r, name, [rec.version], ToolRecordVersions(built[1..]));
    }
  }

  /**
   * Adding succeeds only for versions that are pairwise different and new to
   * the aggregate: a version seen twice for the same name, in one file or
   * across files, aborts.
   */
  lemma AddToolVersionsNeedsFreshVersions(tools: ToolsState, name: string,
                                          built: seq<Result<ToolRecord, Error>>, r: ToolsState)
    requires ToolsWellFormed(tools) && name in tools.table
    requires AddToolVersions(tools, name, built) == Ok(r)
    ensures forall i :: 0 <= i < |built| ==> built[i].Ok?
    ensures forall i, j :: 0 <= i < j < |built| ==> built[i].value.version != built[j].value.version
    ensures forall i :: 0 <= i < |built| ==> built[i].value.version !in tools.table[name].table
  {
    AddToolVersionsAppends(tools, name, built, r);
    AddToolVersionsBuiltAll(tools, name, built);
    assert ToolAggregateWellFormed(r.table[name]) && ToolAggregateWellFormed(tools.table[name]);
    var vs := ToolRecordVersions(built);
    AppendedKeysFresh(tools.table[name], r.table[name], vs);
  }

  /**
   * `walkToolVersions` creates the aggregate on first sight of a name, appended
   * after the names seen so far, and reuses it for a name seen before; the
   * aggregate then ends with the entries' versions in document order.
   */
  lemma WalkToolVersionsFirstSight(env: Environment, tools: ToolsState, name: string,
                                   entries: seq<ToolEntry>, baseDir: string, r: ToolsState)
    requires ToolsWellFormed(tools)
    requires WalkToolVersions(env, tools, name, entries, baseDir) == Ok(r)
    ensures ToolsWellFormed(r) && Extends(tools, r) && name in r.table
    ensures r.keys == (if name in tools.table then tools.keys else tools.keys + [name])
    ensures r.table[name].keys == (if name in tools.table then tools.table[name].keys else []) + ToolVersionsOf(entries)
  {
    var built := BuildToolRecords(env, name, entries, baseDir);
    var start := if name in tools.table then tools else tools.Put(name, Empty());
    StartToolAggregate(tools, name);
    AddToolVersionsAppends(start, name, built, r);
    AddToolVersionsBuiltAll(start, name, built);
    AppendedExtends(start, r, name, ToolRecordVersions(built));
    ExtendsTransitive(tools, start, r);
    BuiltToolVersions(env, name, entries, baseDir);
  }

  /** The aggregate `walkToolVersions` starts from: the existing one, or a new empty one appended. */
  lemma StartToolAggregate(tools: ToolsState, name: string)
    requires ToolsWellFormed(tools)
    ensures var start := if name in tools.table then tools else tools.Put(name, Empty());
      && ToolsWellFormed(start) && Extends(tools, start) && name in start.table
      && start.keys == (if name in tools.table then tools.keys else tools.keys + [name])
      && start.table[name].keys == (if name in tools.table then tools.table[name].keys else [])
  {
    if name !in tools.table {
      PutNewAppends(tools, name, Empty());
      var start := tools.Put(name, Empty());
      assert ToolAggregateWellFormed(start.table[name]);
    } else {
      ExtendsReflexive(tools);
    }
  }

  /** Records built from every entry carry the entries' versions, in order. */
  lemma BuiltToolVersions(env: Environment, name: string, entries: seq<ToolEntry>, baseDir: string)
    requires forall i :: 0 <= i < |entries| ==> BuildToolRecords(env, name, entries, baseDir)[i].Ok?
    ensures ToolRecordVersions(BuildToolRecords(env, name, entries, baseDir)) == ToolVersionsOf(entries)
  {
  }

  /**
   * A version string repeated among a tool's entries, or one already collected
   * for that tool, makes `walkToolVersions` fail.
   */
  lemma WalkToolVersionsRejectsRepeats(env: Environment, tools: ToolsState, name: string,
                                       entries: seq<ToolEntry>, baseDir: string)
    requires ToolsWellFormed(tools)
    ensures WalkToolVersions(env, tools, name, entries, baseDir).Ok? ==>
      && (forall i, j :: 0 <= i < j < |entries| ==> entries[i].version != entries[j].version)
      && (name in tools.table ==> forall i :: 0 <= i < |entries| ==> entries[i].version !in tools.table[name].table)
  {
    if WalkToolVersions(env, tools, name, entries, baseDir).Ok? {
      var r := WalkToolVersions(env, tools, name, entries, baseDir).value;
      var built := BuildToolRecords(env, name, entries, baseDir);
      var start := if name in tools.table then tools else tools.Put(name, Empty());
      if name !in tools.table {
        PutNewAppends(tools, name, Empty());
        assert ToolAggregateWellFormed(start.table[name]);
      }
      assert ToolsWellFormed(start);
      AddToolVersionsNeedsFreshVersions(start, name, built, r);
    }
  }

  /** `walkTools` keeps every aggregate well formed and loses nothing collected before. */
  lemma {:induction false} WalkToolsExtends(env: Environment, tools: ToolsState,
                                            list: seq<(string, seq<ToolEntry>)>, baseDir: string, r: ToolsState)
    requires ToolsWellFormed(tools)
    requires WalkTools(env, tools, list, baseDir) == Ok(r)
    ensures ToolsWellFormed(r) && Extends(tools, r)
    decreases |list|
  {
    if list == [] {
      ExtendsReflexive(tools);
    } else {
      var next := WalkToolVersions(env, tools, list[0].0, list[0].1, baseDir).value;
      WalkToolVersionsFirstSight(env, tools, list[0].0, list[0].1, baseDir, next);
      WalkToolsExtends(env, next, list[1..], baseDir, r);
      ExtendsTransitive(tools, next, r);
    }
  }

  /** After `walkTools`, every listed name has an aggregate. */
  lemma {:induction false} WalkToolsCovers(env: Environment, tools: ToolsState,
                                           list: seq<(string, seq<ToolEntry>)>, baseDir: string, r: ToolsState)
    requires ToolsWellFormed(tools)
    requires WalkTools(env, tools, list, baseDir) == Ok(r)
    ensures forall i :: 0 <= i < |list| ==> list[i].0 in r.table
    decreases |list|
  {
    if list != [] {
      var next := WalkToolVersions(env, tools, list[0].0, list[0].1, baseDir).value;
      WalkToolVersionsFirstSight(env, tools, list[0].0, list[0].1, baseDir, next);
      WalkToolsExtends(env, next, list[1..], baseDir, r);
      WalkToolsCovers(env, next, list[1..], baseDir, r);
      forall i | 1 <= i < |list| ensures list[i].0 in r.table {
        assert list[i] == list[1..][i - 1];
      }
    }
  }

  /** The versions of built plugin records, in order (a failed build contributes nothing usable). */
  function PluginRecordVersions(built: seq<Result<PluginRecord, Error>>): (r: seq<string>)
    ensures |r| == |built|
    ensures forall i :: 0 <= i < |built| && built[i].Ok? ==> r[i] == built[i].value.version
  {
    if built == [] then []
    else [if built[0].Ok? then built[0].value.version else ""] + PluginRecordVersions(built[1..])
  }

  /** Adding succeeds only when every record was built. */
  lemma {:induction false} AddPluginVersionsBuiltAll(plugins: PluginsState, name: string, built: seq<Result<PluginRecord, Error>>)
    requires name in plugins.table && AddPluginVersions(plugins, name, built).Ok?
    ensures forall i :: 0 <= i < |built| ==> built[i].Ok?
    decreases |built|
  {
    if built != [] {
      var rec := built[0].value;
      AddPluginVersionsBuiltAll(plugins.Put(name, plugins.table[name].Put(rec.version, rec)), name, built[1..]);
      assert forall i :: 1 <= i < |built| ==> built[i] == built[1..][i - 1];
    }
  }

  lemma {:induction false} AddPluginVersionsAppends(plugins: PluginsState, name: string,
                                                  built: seq<Result<PluginRecord, Error>>, r: PluginsState)
    requires PluginsWellFormed(plugins) && name in plugins.table
    requires AddPluginVersions(plugins, name, built) == Ok(r)
    ensures PluginsWellFormed(r) && AppendedTo(plugins, r, name, PluginRecordVersions(built))
    decreases |built|
  {
    if built != [] {
      var rec := built[0].value;
      var next := plugins.Put(name, plugins.table[name].Put(rec.version, rec));
      PutVersionAppends(plugins, name, rec.version, rec);
      PutPluginVersionWellFormed(plugins, name, rec);
      AddPluginVersionsAppends(next, name, built[1..], r);
      AppendedTransitive(plugins, next, r, name, [rec.version], PluginRecordVersions(built[1..]));
    }
  }

  lemma AddPluginVersionsNeedsFreshVersions(plugins: PluginsState, name: string,
                                          built: seq<Result<PluginRecord, Error>>, r: PluginsState)
    requires PluginsWellFormed(plugins) && name in plugins.table
    requires AddPluginVersions(plugins, name, built) == Ok(r)
    ensures forall i :: 0 <= i < |built| ==> built[i].Ok?
    ensures forall i, j :: 0 <= i < j < |built| ==> built[i].value.version != built[j].value.version
    ensures forall i :: 0 <= i < |built| ==> built[i].value.version !in plugins.table[name].table
  {
    AddPluginVersionsAppends(plugins, name, built, r);
    AddPluginVersionsBuiltAll(plugins, name, built);
    assert PluginAggregateWellFormed(r.table[name]) && PluginAggregateWellFormed(plugins.table[name]);
    var vs := PluginRecordVersions(built);
    AppendedKeysFresh(plugins.table[name], r.table[name], vs);
  }

  lemma WalkPluginVersionsFirstSight(env: Environment, plugins: PluginsState, name: string,
                                   entries: seq<PluginEntry>, baseDir: string, r: PluginsState)
    requires PluginsWellFormed(plugins)
    requires WalkPluginVersions(env, plugins, name, entries, baseDir) == Ok(r)
    ensures PluginsWellFormed(r) && Extends(plugins, r) && name in r.table
    ensures r.keys == (if name in plugins.table then plugins.keys else plugins.keys + [name])
    ensures r.table[name].keys == (if name in plugins.table then plugins.table[name].keys else []) + PluginVersionsOf(entries)
  {
    var built := BuildPluginRecords(env, name, entries, baseDir);
    var start := if name in plugins.table then plugins else plugins.Put(name, Empty());
    StartPluginAggregate(plugins, name);
    AddPluginVersionsAppends(start, name, built, r);
    AddPluginVersionsBuiltAll(start, name, built);
    AppendedExtends(start, r, name, PluginRecordVersions(built));
    ExtendsTransitive(plugins, start, r);
    BuiltPluginVersions(env, name, entries, baseDir);
  }

  /** The aggregate `walkPluginVersions` starts from: the existing one, or a new empty one appended. */
  lemma StartPluginAggregate(plugins: PluginsState, name: string)
    requires PluginsWellFormed(plugins)
    ensures var start := if name in plugins.table then plugins else plugins.Put(name, Empty());
      && PluginsWellFormed(start) && Extends(plugins, start) && name in start.table
      && start.keys == (if name in plugins.table then plugins.keys else plugins.keys + [name])
      && start.table[name].keys == (if name in plugins.table then plugins.table[name].keys else [])
  {
    if name !in plugins.table {
      PutNewAppends(plugins, name, Empty());
      var start := plugins.Put(name, Empty());
      assert PluginAggregateWellFormed(start.table[name]);
    } else {
      ExtendsReflexive(plugins);
    }
  }

  /** Records built from every entry carry the entries' versions, in order. */
  lemma BuiltPluginVersions(env: Environment, name: string, entries: seq<PluginEntry>, baseDir: string)
    requires forall i :: 0 <= i < |entries| ==> BuildPluginRecords(env, name, entries, baseDir)[i].Ok?
    ensures PluginRecordVersions(BuildPluginRecords(env, name, entries, baseDir)) == PluginVersionsOf(entries)
  {
  }

  lemma WalkPluginVersionsRejectsRepeats(env: Environment, plugins: PluginsState, name: string,
                                       entries: seq<PluginEntry>, baseDir: string)
    requires PluginsWellFormed(plugins)
    ensures WalkPluginVersions(env, plugins, name, entries, baseDir).Ok? ==>
      && (forall i, j :: 0 <= i < j < |entries| ==> entries[i].version != entries[j].version)
      && (name in plugins.table ==> forall i :: 0 <= i < |entries| ==> entries[i].version !in plugins.table[name].table)
  {
    if WalkPluginVersions(env, plugins, name, entries, baseDir).Ok? {
      var r := WalkPluginVersions(env, plugins, name, entries, baseDir).value;
      var built := BuildPluginRecords(env, name, entries, baseDir);
      var start := if name in plugins.table then plugins else plugins.Put(name, Empty());
      if name !in plugins.table {
        PutNewAppends(plugins, name, Empty());
        assert PluginAggregateWellFormed(start.table[name]);
      }
      assert PluginsWellFormed(start);
      AddPluginVersionsNeedsFreshVersions(start, name, built, r);
    }
  }

  /** `walkPlugins` keeps every aggregate well formed and loses nothing collected before. */
  lemma {:induction false} WalkPluginsExtends(env: Environment, plugins: PluginsState,
                                            list: seq<(string, seq<PluginEntry>)>, baseDir: string, r: PluginsState)
    requires PluginsWellFormed(plugins)
    requires WalkPlugins(env, plugins, list, baseDir) == Ok(r)
    ensures PluginsWellFormed(r) && Extends(plugins, r)
    decreases |list|
  {
    if list == [] {
      ExtendsReflexive(plugins);
    } else {
      var next := WalkPluginVersions(env, plugins, list[0].0, list[0].1, baseDir).value;
      WalkPluginVersionsFirstSight(env, plugins, list[0].0, list[0].1, baseDir, next);
      WalkPluginsExtends(env, next, list[1..], baseDir, r);
      ExtendsTransitive(plugins, next, r);
    }
  }

  /** After `walkPlugins`, every listed name has an aggregate. */
  lemma {:induction false} WalkPluginsCovers(env: Environment, plugins: PluginsState,
                                           list: seq<(string, seq<PluginEntry>)>, baseDir: string, r: PluginsState)
    requires PluginsWellFormed(plugins)
    requires WalkPlugins(env, plugins, list, baseDir) == Ok(r)
    ensures forall i :: 0 <= i < |list| ==> list[i].0 in r.table
    decreases |list|
  {
    if list != [] {
      var next := WalkPluginVersions(env, plugins, list[0].0, list[0].1, baseDir).value;
      WalkPluginVersionsFirstSight(env, plugins, list[0].0, list[0].1, baseDir, next);
      WalkPluginsExtends(env, next, list[1..], baseDir, r);
      WalkPluginsCovers(env, next, list[1..], baseDir, r);
      forall i | 1 <= i < |list| ensures list[i].0 in r.table {
        assert list[i] == list[1..][i - 1];
      }
    }
  }

  ghost predicate WellFormed(st: LoadState) {
    ToolsWellFormed(st.tools) && PluginsWellFormed(st.plugins)
  }

  /**
   * Reading a file, and with it every file it includes, only adds to what was
   * collected: the results of all files accumulate into the same two maps.
   */
  lemma {:induction false} ReadFileExtends(env: Environment, fuel: nat, st: LoadState, file: string,
                                           checksum: Option<Checksum>, r: LoadState)
    requires WellFormed(st)
    requires ReadFile(env, fuel, st, file, checksum) == Ok(r)
    ensures WellFormed(r) && Extends(st.tools, r.tools) && Extends(st.plugins, r.plugins)
    decreases fuel, 1
  {
    WalkContentsExtends(env, fuel - 1, st, env.load(file, checksum).value, env.dirname(file), r);
  }

  lemma {:induction false} WalkContentsExtends(env: Environment, fuel: nat, st: LoadState, contents: Manifest,
                                               baseDir: string, r: LoadState)
    requires WellFormed(st)
    requires WalkContents(env, fuel, st, contents, baseDir) == Ok(r)
    ensures WellFormed(r) && Extends(st.tools, r.tools) && Extends(st.plugins, r.plugins)
    decreases fuel, 4
  {
    var walked := WalkSections(env, st, contents, baseDir).value;
    WalkSectionsExtends(env, st, contents, baseDir, walked);
    if contents.includes.Some? {
      WalkIncludeFilesExtends(env, fuel, walked, contents.includes.value, baseDir, r);
      ExtendsTransitive(st.tools, walked.tools, r.tools);
      ExtendsTransitive(st.plugins, walked.plugins, r.plugins);
    }
  }

  /** The tool and plugin walks of one file. */
  lemma WalkSectionsExtends(env: Environment, st: LoadState, m: Manifest, baseDir: string, r: LoadState)
    requires WellFormed(st)
    requires WalkSections(env, st, m, baseDir) == Ok(r)
    ensures WellFormed(r) && Extends(st.tools, r.tools) && Extends(st.plugins, r.plugins)
  {
    if m.tools.Some? {
      WalkToolsExtends(env, st.tools, m.tools.value, baseDir, r.tools);
    } else {
      ExtendsReflexive(st.tools);
    }
    if m.plugins.Some? {
      WalkPluginsExtends(env, st.plugins, m.plugins.value, baseDir, r.plugins);
    } else {
      ExtendsReflexive(st.plugins);
    }
  }

  lemma {:induction false} WalkIncludeFilesExtends(env: Environment, fuel: nat, st: LoadState,
                                                   includes: seq<IncludeEntry>, baseDir: string, r: LoadState)
    requires WellFormed(st)
    requires WalkIncludeFiles(env, fuel, st, includes, baseDir) == Ok(r)
    ensures WellFormed(r) && Extends(st.tools, r.tools) && Extends(st.plugins, r.plugins)
    decreases fuel, 3, |includes|
  {
    if includes == [] {
      ExtendsReflexive(st.tools);
      ExtendsReflexive(st.plugins);
    } else {
      var url := ValidateUrlOrFile(env, includes[0].url, baseDir).value;
      var next := ReadInclude(env, fuel, st, includes[0], baseDir).value;
      ReadFileExtends(env, fuel, st, url, includes[0].checksum, next);
      WalkIncludeFilesExtends(env, fuel, next, includes[1..], baseDir, r);
      ExtendsTransitive(st.tools, next.tools, r.tools);
      ExtendsTransitive(st.plugins, next.plugins, r.plugins);
    }
  }

  /**
   * The include-depth bound only shows when it is reached: a read that succeeds
   * gives the same result with any larger bound.
   */
  lemma {:induction false} ReadFileFuelMonotone(env: Environment, fuel: nat, more: nat, st: LoadState,
                                                file: string, checksum: Option<Checksum>)
    requires fuel <= more
    requires ReadFile(env, fuel, st, file, checksum).Ok?
    ensures ReadFile(env, more, st, file, checksum) == ReadFile(env, fuel, st, file, checksum)
    decreases fuel, 1
  {
    WalkContentsFuelMonotone(env, fuel - 1, more - 1, st, env.load(file, checksum).value, env.dirname(file));
  }

  lemma {:induction false} WalkContentsFuelMonotone(env: Environment, fuel: nat, more: nat, st: LoadState,
                                                    contents: Manifest, baseDir: string)
    requires fuel <= more
    requires WalkContents(env, fuel, st, contents, baseDir).Ok?
    ensures WalkContents(env, more, st, contents, baseDir) == WalkContents(env, fuel, st, contents, baseDir)
    decreases fuel, 4
  {
    if contents.includes.Some? {
      var walked := WalkSections(env, st, contents, baseDir).value;
      WalkIncludeFilesFuelMonotone(env, fuel, more, walked, contents.includes.value, baseDir);
    }
  }

  lemma {:induction false} WalkIncludeFilesFuelMonotone(env: Environment, fuel: nat, more: nat, st: LoadState,
                                                        includes: seq<IncludeEntry>, baseDir: string)
    requires fuel <= more
    requires WalkIncludeFiles(env, fuel, st, includes, baseDir).Ok?
    ensures WalkIncludeFiles(env, more, st, includes, baseDir) == WalkIncludeFiles(env, fuel, st, includes, baseDir)
    decreases fuel, 3, |includes|
  {
    if includes != [] {
      var url := ValidateUrlOrFile(env, includes[0].url, baseDir).value;
      ReadFileFuelMonotone(env, fuel, more, st, url, includes[0].checksum);
      var next := ReadInclude(env, fuel, st, includes[0], baseDir).value;
      WalkIncludeFilesFuelMonotone(env, fuel, more, next, includes[1..], baseDir);
    }
  }

  /**
   * What `loadData` hands back: when it gives data, at least one tool or plugin
   * was collected, every aggregate is keyed by its records' version strings,
   * and any larger include depth gives the same result.
   */
  lemma LoadDataWellFormed(env: Environment, fuel: nat, more: nat, file: string, checksum: Option<Checksum>)
    requires fuel <= more
    ensures var r := LoadData(env, fuel, file, checksum);
      r.Ok? && r.value.Some? ==>
        && WellFormed(r.value.value)
        && (r.value.value.tools.keys != [] || r.value.value.plugins.keys != [])
        && LoadData(env, more, file, checksum) == r
  {
    var read := ReadFile(env, fuel, Initial(), file, checksum);
    if read.Ok? {
      ReadFileExtends(env, fuel, Initial(), file, checksum, read.value);
      ReadFileFuelMonotone(env, fuel, more, Initial(), file, checksum);
    }
  }
}
