/**
 * The session around the engine (anyrun/src/ui.rs): the search entry's
 * debounced change handler, the activation of a selected row, and the
 * interpretation of what the owning plugin's `handle_selection` returns.
 */
module Ui {
  import opened Base
  import opened GMatches
  import opened Plugins

  /** `anyrun_interface::HandleResult`. */
  datatype HandleResult = Close | Refresh(exclusive: bool) | Copy(bytes: seq<byte>) | Stdout(bytes: seq<byte>)

  /** The panics of `handle_selection_activation`: no store item at the row, or no plugin at the id. */
  datatype ActivationError = MissingItem(row: nat) | MissingPlugin(pluginId: u64)

  /** A `glib::SourceId` of a debounce timeout. */
  type TimerId = nat

  /**
   * The plugin that owns the entry at `row` and its answer to
   * `handle_selection`, which receives the entry converted back to an `RMatch`.
   */
  function Selection(store: seq<Fields>, plugins: PluginList, row: nat,
                     handleSelection: (Plugin, RMatch) -> HandleResult): (r: Result<(Plugin, HandleResult), ActivationError>)
    ensures r.Ok? <==> row < |store| && store[row].pluginId < |plugins|
    ensures row >= |store| ==> r == Err(MissingItem(row))
    ensures row < |store| && store[row].pluginId >= |plugins| ==> r == Err(MissingPlugin(store[row].pluginId))
    ensures r.Ok? ==> r.value.0 == plugins[store[row].pluginId]
    ensures r.Ok? ==> r.value.1 == handleSelection(r.value.0, ToRMatch(store[row]))
  {
    if row >= |store| then Err(MissingItem(row))
    else
      var gmatch := store[row];
      if gmatch.pluginId >= |plugins| then Err(MissingPlugin(gmatch.pluginId))
      else
        var plugin := plugins[gmatch.pluginId];
        Ok((plugin, handleSelection(plugin, ToRMatch(gmatch))))
  }

  /**
   * The search entry, the window and the process's standard output as the
   * handlers see them, around the shared runtime state.
   */
  class Session {
    const runtime: RuntimeState
    /** The entry's current text. */
    var text: string
    /** The `debounce_timeout` slot. */
    var debounce: Option<TimerId>
    /** Debounce timeouts the main loop has scheduled and not yet run or removed. */
    var timers: set<TimerId>
    /** The next source id the main loop hands out. */
    var nextTimer: TimerId
    var closed: bool
    /** Bytes written to standard output. */
    var stdout: seq<byte>

    /** At most one debounce timeout is pending, and it is the one the slot holds. */
    ghost predicate Valid()
      reads this
    {
      && (debounce.None? ==> timers == {})
      && (debounce.Some? ==> timers == {debounce.value})
      && forall t :: t in timers ==> t < nextTimer
    }

    constructor (runtime: RuntimeState, text: string)
      ensures Valid()
      ensures this.runtime == runtime && this.text == text
      ensures debounce == None && timers == {} && nextTimer == 0
      ensures !closed && stdout == []
    {
      this.runtime := runtime;
      this.text := text;
      debounce, timers, nextTimer := None, {}, 0;
      closed, stdout := false, [];
    }

    /**
     * The `connect_changed` handler, run after the entry's text became
     * `newText`: removes the pending debounce timeout, clears `exclusive`
     * and schedules a new timeout in the slot. Nothing is refreshed yet.
     */
    method EntryChanged(newText: string)
      requires Valid()
      modifies this, runtime
      ensures Valid()
      ensures text == newText
      ensures runtime.exclusive == None
      ensures debounce == Some(old(nextTimer)) && timers == {old(nextTimer)}
      ensures nextTimer == old(nextTimer) + 1
      ensures old(debounce).Some? ==> old(debounce).value !in timers
      ensures runtime.store == old(runtime.store) && runtime.tasks == old(runtime.tasks)
      ensures runtime.postRunAction == old(runtime.postRunAction)
      ensures closed == old(closed) && stdout == old(stdout)
    {
      text := newText;
      if debounce.Some? {
        var timeoutId := debounce.value;
        debounce := None;
        timers := timers - {timeoutId};
      }
      runtime.exclusive := None;
      var timeoutId := nextTimer;
      nextTimer := nextTimer + 1;
      timers := timers + {timeoutId};
      debounce := Some(timeoutId);
    }

    /**
     * The debounce timeout `id` runs: it clears the slot and then refreshes
     * the matches for the entry's current text.
     */
    method DebounceFired(id: TimerId, query: (Plugin, string) -> Token)
      requires Valid()
      requires id in timers
      modifies this, runtime
      ensures Valid()
      ensures debounce == None && timers == {}
      ensures text == old(text) && nextTimer == old(nextTimer)
      ensures runtime.store == []
      ensures runtime.tasks == old(runtime.tasks) + DispatchPlan(runtime.plugins, old(runtime.exclusive), text, query)
      ensures runtime.exclusive == old(runtime.exclusive) && runtime.postRunAction == old(runtime.postRunAction)
      ensures closed == old(closed) && stdout == old(stdout)
    {
      timers := timers - {id};
      debounce := None;
      runtime.RefreshMatches(text, query);
    }

    /**
     * What activating `row` did, between the state before (`old`) and now:
     * a lookup error changes nothing; otherwise the result is the plugin's
     * answer, and the state changes as that answer demands. `writeOk` is
     * whether writing to standard output succeeds.
     */
    twostate predicate Activated(row: nat, handleSelection: (Plugin, RMatch) -> HandleResult,
                                 query: (Plugin, string) -> Token, writeOk: bool,
                                 new r: Result<HandleResult, ActivationError>)
      reads this, runtime
    {
      && text == old(text) && debounce == old(debounce) && timers == old(timers) && nextTimer == old(nextTimer)
      && match Selection(old(runtime.store), runtime.plugins, row, handleSelection)
        case Err(e) =>
          r == Err(e) && unchanged(this, runtime)
        case Ok((plugin, result)) =>
          r == Ok(result) &&
          match result
          case Close =>
            closed && stdout == old(stdout) && unchanged(runtime)
          case Refresh(exclusive) =>
            && closed == old(closed) && stdout == old(stdout)
            && runtime.exclusive == (if exclusive then Some(plugin) else None)
            && runtime.postRunAction == old(runtime.postRunAction)
            && runtime.store == []
            && runtime.tasks == old(runtime.tasks) + DispatchPlan(runtime.plugins, runtime.exclusive, text, query)
          case Copy(bytes) =>
            && closed && stdout == old(stdout)
            && runtime.postRunAction == PostRunAction.Copy(bytes)
            && runtime.exclusive == old(runtime.exclusive)
            && runtime.store == old(runtime.store) && runtime.tasks == old(runtime.tasks)
          case Stdout(bytes) =>
            && closed && unchanged(runtime)
            && stdout == old(stdout) + if writeOk then bytes else []
    }

    /**
     * `handle_selection_activation(row)`: looks up the entry and its plugin,
     * asks the plugin, and acts on its answer.
     */
    method HandleSelectionActivation(row: nat, handleSelection: (Plugin, RMatch) -> HandleResult,
                                     query: (Plugin, string) -> Token, writeOk: bool)
      returns (r: Result<HandleResult, ActivationError>)
      requires Valid()
      modifies this, runtime
      ensures Valid()
      ensures Activated(row, handleSelection, query, writeOk, r)
    {
      var selection := Selection(runtime.store, runtime.plugins, row, handleSelection);
      if selection.Err? {
        return Err(selection.error);
      }
      var (plugin, result) := selection.value;
      r := Ok(result);
      match result {
        case Close =>
          closed := true;
        case Refresh(exclusive) =>
          runtime.exclusive := if exclusive then Some(plugin) else None;
          runtime.RefreshMatches(text, query);
        case Copy(bytes) =>
          runtime.postRunAction := PostRunAction.Copy(bytes);
          closed := true;
        case Stdout(bytes) =>
          if writeOk {
            stdout := stdout + bytes;
          }
          closed := true;
      }
    }

    /**
     * The `connect_activate` handler of `setup_activation`: with a selected
     * row, activates it; without one, does nothing. (`connect_row_activated`
     * is the same with the row always given.)
     */
    method Activate(selected: Option<nat>, handleSelection: (Plugin, RMatch) -> HandleResult,
                    query: (Plugin, string) -> Token, writeOk: bool)
      returns (r: Option<Result<HandleResult, ActivationError>>)
      requires Valid()
      modifies this, runtime
      ensures Valid()
      ensures selected.None? ==> r.None? && unchanged(this, runtime)
      ensures selected.Some? ==> r.Some? && Activated(selected.value, handleSelection, query, writeOk, r.value)
    {
      if selected.Some? {
        var activation := HandleSelectionActivation(selected.value, handleSelection, query, writeOk);
        r := Some(activation);
      } else {
        r := None;
      }
    }
  }

  /**
   * After `handle_selection` answers `Refresh(true)` for the `k`-th plugin,
   * the refresh queries only that plugin, and its entries report `k`.
   */
  method ExclusiveRefreshScenario(plugins: PluginList, k: nat, m: RMatch, x: RMatch,
                                  query: (Plugin, string) -> Token)
    requires k < |plugins|
    requires DistinctInfos(plugins)
  {
    var runtime := new RuntimeState(plugins);
    runtime.HandleMatches(k, [m]);
    var session := new Session(runtime, "cal");
    var r := session.HandleSelectionActivation(0, (p, rm) => Refresh(true), query, true);
    assert Batch(k, [m])[0].pluginId == k;
    assert r == Ok(Refresh(true));
    assert runtime.exclusive == Some(plugins[k]);
    ExclusiveKeepsOwner(plugins, k, "cal", query);
    assert |runtime.tasks| == 1 && runtime.tasks[0].plugin == plugins[k] && runtime.tasks[0].pluginId == k;
    var flow := runtime.PollTask(0, Ready([x]));
    assert runtime.store == Batch(k, [x]) && runtime.store[0].pluginId == k;
  }

  /**
   * Activating the selected row of a one-entry store whose plugin answers
   * `Close` closes the window and leaves the runtime state alone; without a
   * selected row nothing happens.
   */
  method ActivateCloseScenario(plugins: PluginList, m: RMatch, query: (Plugin, string) -> Token)
    requires |plugins| > 0
  {
    var runtime := new RuntimeState(plugins);
    runtime.HandleMatches(0, [m]);
    var session := new Session(runtime, "");
    var none := session.Activate(None, (p, rm) => Close, query, true);
    assert none.None? && !session.closed;
    assert Batch(0, [m])[0].pluginId == 0;
    var r := session.Activate(Some(0), (p, rm) => Close, query, true);
    assert r == Some(Ok(Close));
    assert session.closed && runtime.store == Batch(0, [m]) && runtime.exclusive == None;
  }

  /** A text change after an exclusive refresh clears `exclusive` again; the next query goes to every plugin. */
  method EditClearsExclusiveScenario(plugins: PluginList, query: (Plugin, string) -> Token)
    requires |plugins| > 0
  {
    var runtime := new RuntimeState(plugins);
    runtime.exclusive := Some(plugins[0]);
    var session := new Session(runtime, "");
    session.EntryChanged("a");
    session.EntryChanged("ab");
    assert session.timers == {1};
    session.DebounceFired(1, query);
    DispatchAll(plugins, "ab", query);
    assert |runtime.tasks| == |plugins|;
  }
}
