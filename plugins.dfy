/**
 * The query engine (anyrun/src/plugins.rs): resolving a plugin's library
 * path, dispatching one non-blocking query per active plugin, polling every
 * outstanding query from the main loop, and appending each resolved batch
 * to the shared result store with its provenance.
 */
module Plugins {
  import opened Base
  import opened Paths
  import opened GMatches

  /** The opaque handle a plugin's `get_matches` returns for one query. */
  type Token = u64

  /**
   * A loaded plugin (`PluginRef`). `info` stands for the plugin's `info`
   * entry point, which `refresh_matches` compares to recognise a plugin;
   * `library` is the path it was loaded from.
   */
  datatype Plugin = Plugin(info: nat, library: Path)

  /** The loaded plugins in load order; their indices are stored as `u64` plugin ids. */
  type PluginList = s: seq<Plugin> | |s| < U64_LIMIT

  /** `anyrun_interface::PollResult`, a plugin's answer to `poll_matches(token)`. */
  datatype PollResult = Ready(matches: seq<RMatch>) | Pending | Cancelled

  /** `glib::ControlFlow`: whether the main loop keeps a timeout source scheduled. */
  datatype ControlFlow = Continue | Break

  /** What one run of `async_match` does: its return value and the batch handed to the callback, if any. */
  datatype PollStep = PollStep(flow: ControlFlow, delivered: Option<seq<RMatch>>)

  /** One scheduled poll timeout: the plugin, its query token and the plugin id its entries get. */
  datatype Task = Task(plugin: Plugin, token: Token, pluginId: u64)

  /** `config::PostRunAction`: what happens after the window closes. */
  datatype PostRunAction = NoAction | Copy(bytes: seq<byte>)

  /** `load_plugin` panics with "Invalid plugin path" when no candidate file exists. */
  datatype LoadError = InvalidPluginPath(path: Path)

  // ---------------------------------------------------------------------
  // load_plugin: path resolution

  /**
   * The directories searched for a relative plugin path: the entries of
   * `ANYRUN_PLUGINS` when it is set, otherwise `<config_dir>/plugins` and
   * then `<default_config_dir()>/plugins`.
   */
  function SearchDirs(anyrunPlugins: Option<string>, configDir: Path, defaultConfigDir: Path): (r: seq<Path>)
    ensures anyrunPlugins.Some? ==>
      && |r| >= 1 && JoinPaths(r) == anyrunPlugins.value
      && forall k :: 0 <= k < |r| ==> ':' !in r[k]
    ensures anyrunPlugins.None? ==>
      && r == [Join(configDir, "plugins"), Join(defaultConfigDir, "plugins")]
      && configDir <= r[0] && defaultConfigDir <= r[1]
      && Components(r[0]) == Components(configDir) + ["plugins"]
      && Components(r[1]) == Components(defaultConfigDir) + ["plugins"]
  {
    match anyrunPlugins
    case Some(paths) =>
      SplitPathsRoundTrip(paths);
      SplitPathsShape(paths);
      SplitPaths(paths)
    case None =>
      PluginsComponent();
      JoinComponents(configDir, "plugins");
      JoinComponents(defaultConfigDir, "plugins");
      [Join(configDir, "plugins"), Join(defaultConfigDir, "plugins")]
  }

  /** The literal `plugins` is a single path component. */
  lemma PluginsComponent()
    ensures Components("plugins") == ["plugins"]
  {
    var s := "plugins";
    assert forall k :: 0 <= k < |s| ==> !IsSeparator(s[k]);
  }

  /**
   * The library path `load_plugin` opens: an absolute `pluginPath` as it is;
   * otherwise the first search directory, in order, whose join with
   * `pluginPath` exists, and an error when there is none.
   */
  function ResolvePluginPath(pluginPath: Path, configDir: Path, anyrunPlugins: Option<string>,
                             defaultConfigDir: Path, pathExists: Path -> bool): (r: Result<Path, LoadError>)
    ensures IsAbsolute(pluginPath) ==> r == Ok(pluginPath)
    ensures r.Err? ==> r.error == InvalidPluginPath(pluginPath)
    ensures var dirs := SearchDirs(anyrunPlugins, configDir, defaultConfigDir);
      !IsAbsolute(pluginPath) ==>
        (r.Ok? <==> exists k :: 0 <= k < |dirs| && pathExists(Join(dirs[k], pluginPath)))
    ensures var dirs := SearchDirs(anyrunPlugins, configDir, defaultConfigDir);
      !IsAbsolute(pluginPath) && r.Ok? ==>
        exists k :: 0 <= k < |dirs| && r.value == Join(dirs[k], pluginPath) && pathExists(r.value) &&
          forall j :: 0 <= j < k ==> !pathExists(Join(dirs[j], pluginPath))
  {
    if IsAbsolute(pluginPath) then Ok(pluginPath)
    else FirstExisting(SearchDirs(anyrunPlugins, configDir, defaultConfigDir), pluginPath, pathExists)
  }

  /** The first `dir.join(pluginPath)` over `dirs` that exists, or the error naming `pluginPath`. */
  function FirstExisting(dirs: seq<Path>, pluginPath: Path, pathExists: Path -> bool): (r: Result<Path, LoadError>)
    ensures r.Err? ==> r.error == InvalidPluginPath(pluginPath)
    ensures r.Ok? <==> exists k :: 0 <= k < |dirs| && pathExists(Join(dirs[k], pluginPath))
    ensures r.Ok? ==>
      exists k :: 0 <= k < |dirs| && r.value == Join(dirs[k], pluginPath) && pathExists(r.value) &&
        forall j :: 0 <= j < k ==> !pathExists(Join(dirs[j], pluginPath))
  {
    var candidates := seq(|dirs|, i requires 0 <= i < |dirs| => Join(dirs[i], pluginPath));
    assert forall j :: 0 <= j < |dirs| ==> candidates[j] == Join(dirs[j], pluginPath);
    match Position(candidates, pathExists)
    case Some(k) => Ok(candidates[k])
    case None => Err(InvalidPluginPath(pluginPath))
  }

  /** Without `ANYRUN_PLUGINS`, the configured directory is tried before the default one. */
  lemma DefaultSearchOrder(pluginPath: Path, configDir: Path, defaultConfigDir: Path, pathExists: Path -> bool)
    requires !IsAbsolute(pluginPath)
    ensures var first := Join(Join(configDir, "plugins"), pluginPath);
            var second := Join(Join(defaultConfigDir, "plugins"), pluginPath);
            ResolvePluginPath(pluginPath, configDir, None, defaultConfigDir, pathExists) ==
              if pathExists(first) then Ok(first)
              else if pathExists(second) then Ok(second)
              else Err(InvalidPluginPath(pluginPath))
  {
    var dirs := SearchDirs(None, configDir, defaultConfigDir);
    assert |dirs| == 2;
    var r := ResolvePluginPath(pluginPath, configDir, None, defaultConfigDir, pathExists);
    if r.Ok? {
      var k :| 0 <= k < |dirs| && r.value == Join(dirs[k], pluginPath) && pathExists(r.value) &&
               forall j :: 0 <= j < k ==> !pathExists(Join(dirs[j], pluginPath));
      assert k == 0 || k == 1;
    } else {
      assert !pathExists(Join(dirs[0], pluginPath)) && !pathExists(Join(dirs[1], pluginPath));
    }
  }

  /** With `ANYRUN_PLUGINS` set, neither configuration directory is consulted. */
  lemma EnvironmentOverridesConfig(pluginPath: Path, paths: string, configDir: Path, defaultConfigDir: Path,
                                   otherConfigDir: Path, otherDefaultDir: Path, pathExists: Path -> bool)
    ensures ResolvePluginPath(pluginPath, configDir, Some(paths), defaultConfigDir, pathExists) ==
            ResolvePluginPath(pluginPath, otherConfigDir, Some(paths), otherDefaultDir, pathExists)
  {
  }

  // ---------------------------------------------------------------------
  // handle_matches: one resolved batch as store entries

  /**
   * The entries `handle_matches(pluginId, matches)` appends: one per match,
   * in order, each converting back to its match, tagged with `pluginId`,
   * and with `first` set exactly at index 0.
   */
  function Batch(pluginId: u64, matches: seq<RMatch>): (r: seq<Fields>)
    ensures |r| == |matches|
    ensures forall i :: 0 <= i < |matches| ==>
      ToRMatch(r[i]) == matches[i] && r[i].pluginId == pluginId && (r[i].first <==> i == 0)
  {
    seq(|matches|, i requires 0 <= i < |matches| =>
      FromRMatch(matches[i]).(pluginId := pluginId, first := i == 0))
  }

  /** The number of group leaders (entries with `first` set) in a run of entries. */
  function GroupLeaders(s: seq<Fields>): nat {
    if s == [] then 0 else (if s[0].first then 1 else 0) + GroupLeaders(s[1..])
  }

  lemma {:induction false} GroupLeadersConcat(a: seq<Fields>, b: seq<Fields>)
    ensures GroupLeaders(a + b) == GroupLeaders(a) + GroupLeaders(b)
  {
    if a == [] {
      assert a + b == b;
    } else {
      assert (a + b)[0] == a[0];
      assert (a + b)[1..] == a[1..] + b;
      GroupLeadersConcat(a[1..], b);
    }
  }

  lemma {:induction false} NoGroupLeaders(s: seq<Fields>)
    requires forall i :: 0 <= i < |s| ==> !s[i].first
    ensures GroupLeaders(s) == 0
  {
    if s != [] {
      NoGroupLeaders(s[1..]);
    }
  }

  /** A nonempty batch has exactly one group leader, an empty one none. */
  lemma BatchLeaders(pluginId: u64, matches: seq<RMatch>)
    ensures GroupLeaders(Batch(pluginId, matches)) == if matches == [] then 0 else 1
  {
    var b := Batch(pluginId, matches);
    if matches != [] {
      assert b[0].first;
      NoGroupLeaders(b[1..]);
    }
  }

  /** Appending a batch adds exactly one group leader to the store when the batch is nonempty. */
  lemma AppendBatchLeaders(store: seq<Fields>, pluginId: u64, matches: seq<RMatch>)
    ensures GroupLeaders(store + Batch(pluginId, matches)) ==
            GroupLeaders(store) + if matches == [] then 0 else 1
  {
    GroupLeadersConcat(store, Batch(pluginId, matches));
    BatchLeaders(pluginId, matches);
  }

  // ---------------------------------------------------------------------
  // async_match: one poll of one outstanding query

  /**
   * `async_match`: a `Ready` batch is handed to the callback and the timeout
   * is removed; `Pending` keeps it scheduled; `Cancelled` removes it and
   * hands over nothing.
   */
  function AsyncMatch(r: PollResult): (s: PollStep)
    ensures s.delivered.Some? <==> r.Ready?
    ensures r.Ready? ==> s.delivered.value == r.matches
    ensures s.flow == Continue <==> r.Pending?
  {
    match r
    case Ready(matches) => PollStep(Break, Some(matches))
    case Pending => PollStep(Continue, None)
    case Cancelled => PollStep(Break, None)
  }

  // ---------------------------------------------------------------------
  // refresh_matches: which plugins get a query, and under which id

  /** The first loaded plugin whose `info` is `info` (`position(|p| p.info() == ...)`). */
  function OwnerIndex(plugins: seq<Plugin>, info: nat): (r: Option<nat>)
    ensures r.Some? ==> r.value < |plugins| && plugins[r.value].info == info
    ensures r.Some? ==> forall j :: 0 <= j < r.value ==> plugins[j].info != info
    ensures r.None? ==> forall j :: 0 <= j < |plugins| ==> plugins[j].info != info
  {
    Position(plugins, (p: Plugin) => p.info == info)
  }

  /** The plugins queried: only the exclusive one when set, otherwise all, in load order. */
  function ActivePlugins(plugins: PluginList, exclusive: Option<Plugin>): (r: seq<Plugin>)
    ensures exclusive.Some? ==> r == [exclusive.value]
    ensures exclusive.None? ==> r == plugins
  {
    match exclusive
    case Some(p) => [p]
    case None => plugins
  }

  /**
   * The poll tasks one `refresh_matches(input)` schedules, in order: one per
   * active plugin with the token its `get_matches(input)` returned, tagged
   * with the exclusive plugin's index in the full list, or else with the
   * plugin's position in the active list.
   */
  function DispatchPlan(plugins: PluginList, exclusive: Option<Plugin>, input: string,
                        query: (Plugin, string) -> Token): (plan: seq<Task>)
    ensures |plan| == |ActivePlugins(plugins, exclusive)|
    ensures forall i :: 0 <= i < |plan| ==>
      var p := ActivePlugins(plugins, exclusive)[i];
      plan[i].plugin == p && plan[i].token == query(p, input)
    ensures exclusive.None? ==> forall i :: 0 <= i < |plan| ==> plan[i].pluginId == i
  {
    var active := ActivePlugins(plugins, exclusive);
    var owner := if exclusive.Some? then OwnerIndex(plugins, exclusive.value.info) else None;
    seq(|active|, i requires 0 <= i < |active| =>
      Task(active[i], query(active[i], input), owner.UnwrapOr(i)))
  }

  /**
   * Without an exclusive plugin every loaded plugin is queried once, in load
   * order, and its entries are tagged with its load-order index.
   */
  lemma DispatchAll(plugins: PluginList, input: string, query: (Plugin, string) -> Token)
    ensures var plan := DispatchPlan(plugins, None, input, query);
      |plan| == |plugins| &&
      forall i :: 0 <= i < |plugins| ==>
        plan[i] == Task(plugins[i], query(plugins[i], input), i)
  {
  }

  /**
   * With an exclusive plugin exactly one query is issued, to that plugin; its
   * entries are tagged with the index of the first loaded plugin with the
   * same `info`, or with 0 when no loaded plugin has it.
   */
  lemma DispatchExclusive(plugins: PluginList, p: Plugin, input: string, query: (Plugin, string) -> Token)
    ensures var plan := DispatchPlan(plugins, Some(p), input, query);
      |plan| == 1 && plan[0].plugin == p && plan[0].token == query(p, input) &&
      ((exists k :: 0 <= k < |plugins| && plugins[k].info == p.info) ==>
         plan[0].pluginId < |plugins| && plugins[plan[0].pluginId].info == p.info &&
         forall j :: 0 <= j < plan[0].pluginId ==> plugins[j].info != p.info) &&
      ((forall k :: 0 <= k < |plugins| ==> plugins[k].info != p.info) ==> plan[0].pluginId == 0)
  {
    var plan := DispatchPlan(plugins, Some(p), input, query);
    var owner := OwnerIndex(plugins, p.info);
    assert ActivePlugins(plugins, Some(p)) == [p];
    assert plan[0] == Task(p, query(p, input), owner.UnwrapOr(0));
  }

  /** Plugins are told apart by their `info` entry points. */
  ghost predicate DistinctInfos(plugins: seq<Plugin>) {
    forall i, j :: 0 <= i < j < |plugins| ==> plugins[i].info != plugins[j].info
  }

  /**
   * When the exclusive plugin is the `k`-th loaded plugin (and infos tell
   * plugins apart), its entries report `k`, the plugin's true identity.
   */
  lemma ExclusiveKeepsOwner(plugins: PluginList, k: nat, input: string, query: (Plugin, string) -> Token)
    requires k < |plugins|
    requires DistinctInfos(plugins)
    ensures DispatchPlan(plugins, Some(plugins[k]), input, query)[0].pluginId == k
  {
    DispatchExclusive(plugins, plugins[k], input, query);
  }

  // ---------------------------------------------------------------------
  // The shared runtime state and the main-loop steps that change it

  /**
   * The engine's part of `RuntimeData`: the exclusive plugin, the pending
   * post-run action, the loaded plugins, the list store (as the property
   * values of the `GMatch` objects it holds) and the poll timeouts the main
   * loop has scheduled and not yet removed.
   */
  class RuntimeState {
    var exclusive: Option<Plugin>
    var postRunAction: PostRunAction
    const plugins: PluginList
    var store: seq<Fields>
    var tasks: seq<Task>

    constructor (plugins: PluginList)
      ensures this.plugins == plugins
      ensures exclusive == None && postRunAction == NoAction
      ensures store == [] && tasks == []
    {
      this.plugins := plugins;
      exclusive, postRunAction := None, NoAction;
      store, tasks := [], [];
    }

    /**
     * `handle_matches`: appends one entry per match, in order, and leaves the
     * entries already in the store untouched.
     */
    method HandleMatches(pluginId: u64, matches: seq<RMatch>)
      modifies this
      ensures store == old(store) + Batch(pluginId, matches)
      ensures tasks == old(tasks)
      ensures exclusive == old(exclusive) && postRunAction == old(postRunAction)
    {
      var i := 0;
      while i < |matches|
        invariant 0 <= i <= |matches|
        invariant store == old(store) + Batch(pluginId, matches)[..i]
        invariant tasks == old(tasks)
        invariant exclusive == old(exclusive) && postRunAction == old(postRunAction)
      {
        var gmatch := GMatch.FromRecord(matches[i]);
        gmatch.SetPluginId(pluginId);
        gmatch.SetFirst(i == 0);
        store := store + [gmatch.Snapshot()];
        assert Batch(pluginId, matches)[..i + 1] == Batch(pluginId, matches)[..i] + [gmatch.Snapshot()];
        i := i + 1;
      }
      assert Batch(pluginId, matches)[..|matches|] == Batch(pluginId, matches);
    }

    /**
     * `refresh_matches(input)`: empties the store, then issues one query per
     * active plugin and schedules its poll task. Tasks left from earlier
     * calls stay scheduled.
     */
    method RefreshMatches(input: string, query: (Plugin, string) -> Token)
      modifies this
      ensures store == []
      ensures tasks == old(tasks) + DispatchPlan(plugins, old(exclusive), input, query)
      ensures exclusive == old(exclusive) && postRunAction == old(postRunAction)
    {
      store := [];
      var exclusivePluginId: Option<nat> := None;
      var pluginsToUse: seq<Plugin>;
      if exclusive.Some? {
        exclusivePluginId := OwnerIndex(plugins, exclusive.value.info);
        pluginsToUse := [exclusive.value];
      } else {
        pluginsToUse := plugins;
      }
      ghost var plan := DispatchPlan(plugins, exclusive, input, query);
      var i := 0;
      while i < |pluginsToUse|
        invariant 0 <= i <= |pluginsToUse| == |plan|
        invariant tasks == old(tasks) + plan[..i]
        invariant store == [] && exclusive == old(exclusive) && postRunAction == old(postRunAction)
      {
        var plugin := pluginsToUse[i];
        var token := query(plugin, input);
        tasks := tasks + [Task(plugin, token, exclusivePluginId.UnwrapOr(i))];
        assert plan[..i + 1] == plan[..i] + [plan[i]];
        i := i + 1;
      }
      assert plan[..|plan|] == plan;
    }

    /**
     * One firing of the `k`-th poll timeout, whose plugin answered `result`
     * to `poll_matches(token)`: a `Ready` batch is appended under the task's
     * plugin id; the task is removed unless the answer was `Pending`.
     */
    method PollTask(k: nat, result: PollResult) returns (flow: ControlFlow)
      requires k < |tasks|
      modifies this
      ensures flow == AsyncMatch(result).flow
      ensures store == if result.Ready? then old(store) + Batch(old(tasks[k]).pluginId, result.matches)
                       else old(store)
      ensures tasks == if result.Pending? then old(tasks) else old(tasks[..k] + tasks[k + 1..])
      ensures exclusive == old(exclusive) && postRunAction == old(postRunAction)
    {
      var task := tasks[k];
      var step := AsyncMatch(result);
      if step.delivered.Some? {
        HandleMatches(task.pluginId, step.delivered.value);
      }
      flow := step.flow;
      if flow == Break {
        tasks := tasks[..k] + tasks[k + 1..];
      }
    }
  }

  /**
   * Plugin A resolves [x, y] before plugin B resolves [z]: the store reads
   * x (first, A), y (not first, A), z (first, B).
   */
  method ArrivalOrderScenario(a: Plugin, b: Plugin, input: string, x: RMatch, y: RMatch, z: RMatch,
                              query: (Plugin, string) -> Token)
  {
    var rt := new RuntimeState([a, b]);
    rt.RefreshMatches(input, query);
    DispatchAll([a, b], input, query);
    var ta, tb := Task(a, query(a, input), 0), Task(b, query(b, input), 1);
    assert rt.tasks == [ta, tb];
    var flow := rt.PollTask(0, Ready([x, y]));
    assert rt.store == Batch(0, [x, y]) && rt.tasks == [tb];
    flow := rt.PollTask(0, Ready([z]));
    var s := rt.store;
    assert s == Batch(0, [x, y]) + Batch(1, [z]) && rt.tasks == [];
    ArrivalOrder(x, y, z);
    assert ToRMatch(s[0]) == x && s[0].pluginId == 0 && s[0].first;
    assert ToRMatch(s[1]) == y && s[1].pluginId == 0 && !s[1].first;
    assert ToRMatch(s[2]) == z && s[2].pluginId == 1 && s[2].first;
  }

  /** The entries of a batch [x, y] from plugin 0 followed by a batch [z] from plugin 1. */
  lemma ArrivalOrder(x: RMatch, y: RMatch, z: RMatch)
    ensures var s := Batch(0, [x, y]) + Batch(1, [z]);
      && |s| == 3
      && ToRMatch(s[0]) == x && s[0].pluginId == 0 && s[0].first
      && ToRMatch(s[1]) == y && s[1].pluginId == 0 && !s[1].first
      && ToRMatch(s[2]) == z && s[2].pluginId == 1 && s[2].first
  {
    var first, second := Batch(0, [x, y]), Batch(1, [z]);
    var s := first + second;
    assert s[0] == first[0] && s[1] == first[1] && s[2] == second[0];
  }

  /**
   * `refresh_matches` does not cancel earlier tasks: a query from a previous
   * cycle that resolves after a new refresh lands in the new cycle's store,
   * under the plugin id it was dispatched with.
   */
  method StaleTaskScenario(x: RMatch, query: (Plugin, string) -> Token)
  {
    var a, b := Plugin(1, "/plugins/liba.so"), Plugin(2, "/plugins/libb.so");
    var rt := new RuntimeState([a, b]);
    rt.RefreshMatches("fir", query);
    assert rt.tasks[0] == Task(a, query(a, "fir"), 0);
    rt.exclusive := Some(b);
    rt.RefreshMatches("fire", query);
    assert |rt.tasks| == 3 && rt.tasks[2] == Task(b, query(b, "fire"), 1);
    assert rt.tasks[0].pluginId == 0;
    var flow := rt.PollTask(0, Ready([x]));
    assert rt.store == Batch(0, [x]);
    assert ToRMatch(rt.store[0]) == x && rt.store[0].pluginId == 0;
  }
}
