# anyrun: the query engine and selection handling, modelled in Dafny

anyrun is a Wayland launcher. It loads a list of plugins. Each keystroke in its search entry (debounced) starts a query cycle:

- the shared list store is emptied;
- every active plugin gets one non-blocking `get_matches` call, which returns a token;
- a 1 ms main-loop timeout per token polls the plugin until the query is `Ready` or `Cancelled`;
- each resolved batch is appended to the store as `GMatch` objects that record their plugin id and whether they lead their group.

Activating a row hands the match back to its plugin's `handle_selection`. The answer may close the window, narrow the next queries to that plugin alone ("exclusive" mode), schedule a clipboard copy for after the window closes, or write bytes to standard output.

The model covers four source files:

- `Plugins` (plugins.rs): a `RuntimeState` class holding the exclusive plugin, the post-run action, the loaded plugins, the store and the outstanding poll tasks.
  - `RefreshMatches` and `HandleMatches` are loops, as in the source.
  - `PollTask` is one firing of one poll timeout.
  - Path resolution and `async_match` are functions.
- `GMatches` (gmatch.rs): a `GMatch` class with the eight fields of `imp::GMatch`.
  - Properties are set and read by name.
  - The conversions to and from the plugin record `RMatch` work through the setters and getters.
  - `Fields` is a snapshot of one object; the store holds these snapshots.
- `Ui` (ui.rs): a `Session` class with the entry text, the debounce slot, the scheduled timers, the window's closed flag and standard output.
- `Utils` (utils.rs): the socket-buffer decode and NUL trim, the icon-source choice, and the post-run guard.

Three helper modules model the standard library: `Base` (Option, Result, `u64`, `Iterator::position`), `Paths` (`Path::is_absolute`, `Path::join` and `env::split_paths` on Unix, plus `Components`, a `/`-split of a path into its names that states join's properties) and `Utf8` (`String::from_utf8`, as the well-formed sequences of the Unicode Standard, Table 3-7, with an independent encoder to check it against).

Everything outside the program is a parameter:

- a plugin's `get_matches` is a function `query: (Plugin, string) -> Token`;
- the answer to `poll_matches` is the `result` argument of `PollTask`;
- `handle_selection` is a function `(Plugin, RMatch) -> HandleResult`;
- `Path::exists` is a predicate `pathExists`;
- `ANYRUN_PLUGINS` is an `Option<string>`;
- whether the stdout write succeeds is `writeOk`;
- the bytes a socket read delivers, and the buffer size, are arguments of `ReadFromStream`.

Each main-loop event is a method call: an edit, a debounce timeout, a poll timeout, an activation. Which event comes next is the caller's choice.

Under these assumptions, the model proves:

- handing a match whose strings contain no NUL (U+0000) to a `GMatch` and back gives the same record;
- the store is emptied before a cycle's appends;
- each batch is appended in order under its plugin id, and each nonempty batch has exactly one group leader;
- an exclusive plugin's entries carry its index in the full plugin list, when no earlier loaded plugin has the same `info`;
- the debounce slot never holds more than one pending timer;
- each `HandleResult` changes exactly the state the source changes;
- the UTF-8 decoder accepts exactly the encodings of strings, so a short message with no NUL at either end, read from the socket, comes back unchanged after decoding and trimming.

## Model

| member | source | states |
|---|---|---|
| Base.Option.UnwrapOr | anyrun/src/plugins.rs:102 | `Option::unwrap_or`: the held value, or the default for None. |
| Base.Position | anyrun/src/plugins.rs:85-87 | The index returned is the first one whose element satisfies the predicate; None means no element does (`Iterator::position`, also behind `find`). |
| Paths.IsAbsolute | anyrun/src/plugins.rs:59 | On Unix, a path is absolute exactly when it starts with the root `/`. |
| Paths.Join | anyrun/src/plugins.rs:54-64 | An absolute right operand is the result. For a relative one, the result starts with the base and ends with the operand, is at most one character longer than both together, and that extra character is a `/`. The `/` is inserted exactly when the base is nonempty and does not already end in `/`. Joining onto a nonempty base keeps the base's absoluteness. |
| Paths.Components | anyrun/src/plugins.rs:54-64 | Every name a path splits into at `/` is nonempty and contains no `/`. The split ignores the root and keeps `.` pieces. |
| Paths.JoinComponents | anyrun/src/plugins.rs:54-64 | Joining a relative path onto a base gives the base's names followed by the path's names. Since `Components` ignores the root, the root is covered by `Join`'s own contract instead. |
| Paths.ComponentsOfSeparated | anyrun/src/plugins.rs:54-64 | Two strings with a `/` between them have the first string's components followed by the second's. |
| Paths.SplitPaths | anyrun/src/plugins.rs:52 | Splitting always gives at least one path, and the empty value gives one empty path. |
| Paths.SplitPathsShape | anyrun/src/plugins.rs:52 | The value splits into one path more than it has `:` separators, and no path contains `:`. |
| Paths.SplitPathsRoundTrip | anyrun/src/plugins.rs:52 | Joining the pieces with `:` gives back the variable's value, so nothing of `ANYRUN_PLUGINS` is lost or reordered. |
| Plugins.SearchDirs | anyrun/src/plugins.rs:51-57 | With `ANYRUN_PLUGINS` set, the search directories are its entries: none contains `:`, and joined with `:` they give back its value. Without it, there are two: the configuration directory joined with `plugins`, then the default directory joined with `plugins`. Each starts with its base directory and has the base's names plus `plugins`. |
| Plugins.PluginsComponent | anyrun/src/plugins.rs:55 | `plugins` is a single path component. |
| Plugins.FirstExisting | anyrun/src/plugins.rs:62-66 | The search succeeds iff some directory joined with the plugin path exists. It then gives the first such join in directory order; otherwise it gives the "Invalid plugin path" error for that path. |
| Plugins.ResolvePluginPath | anyrun/src/plugins.rs:51-67 | An absolute plugin path is used as it is. A relative one resolves iff some search directory joined with it exists, and then to the first such join in search order. Otherwise it is the "Invalid plugin path" error for that path. |
| Plugins.DefaultSearchOrder | anyrun/src/plugins.rs:51-66 | Without `ANYRUN_PLUGINS`, `config_dir/plugins` is tried first, then `default_config_dir()/plugins`; if neither exists, the result is the error. |
| Plugins.EnvironmentOverridesConfig | anyrun/src/plugins.rs:51-53 | With `ANYRUN_PLUGINS` set, the result does not depend on either configuration directory. |
| Plugins.Batch | anyrun/src/plugins.rs:17-24 | A batch has one entry per match, in order. Each entry converts back to its match and carries the given plugin id. `first` holds exactly at index 0. |
| Plugins.BatchLeaders | anyrun/src/plugins.rs:19-22 | A nonempty batch has exactly one group leader; an empty one has none. |
| Plugins.GroupLeadersConcat | anyrun/src/plugins.rs:17-24 | The leaders in a concatenation of entry runs add up. |
| Plugins.NoGroupLeaders | anyrun/src/plugins.rs:21 | A run with no `first` entry has no leaders. |
| Plugins.AppendBatchLeaders | anyrun/src/plugins.rs:17-24 | Appending a nonempty batch adds exactly one group leader to the store; an empty batch adds none. |
| Plugins.AsyncMatch | anyrun/src/plugins.rs:112-124 | The callback receives the batch exactly when the answer is `Ready`. The timeout stays scheduled (`Continue`) exactly when the answer is `Pending`. |
| Plugins.OwnerIndex | anyrun/src/plugins.rs:84-86 | The result is the first loaded plugin whose `info` equals the exclusive plugin's, or None when no loaded plugin has it. |
| Plugins.ActivePlugins | anyrun/src/plugins.rs:84-92 | With an exclusive plugin, only that plugin is queried; otherwise every loaded plugin is, in load order. |
| Plugins.DispatchPlan | anyrun/src/plugins.rs:80-109 | There is one poll task per queried plugin, in order. Each task holds its plugin and the token that plugin's `get_matches(input)` returned. Without an exclusive plugin, each task's plugin id is its position. |
| Plugins.DispatchAll | anyrun/src/plugins.rs:90-102 | Without an exclusive plugin, each loaded plugin is queried once, in load order, and its entries are tagged with its load-order index. |
| Plugins.DispatchExclusive | anyrun/src/plugins.rs:82-102 | With an exclusive plugin, exactly one query goes to it. Its entries are tagged with the index of the first loaded plugin with the same `info`, or with 0 when there is none. |
| Plugins.ExclusiveKeepsOwner | anyrun/src/plugins.rs:84-102 | When the exclusive plugin is the k-th loaded one and infos differ, its entries report k. |
| Plugins.ArrivalOrder | anyrun/src/plugins.rs:17-24 | Plugin 0's batch [x, y] followed by plugin 1's batch [z] reads x (leader, plugin 0), y (not leader, plugin 0), z (leader, plugin 1). |
| Plugins.RuntimeState.constructor | anyrun/src/main.rs:136-146 | The state starts with no exclusive plugin, no post-run action, an empty store, no poll task, and the plugins it is given. |
| Plugins.RuntimeState.HandleMatches | anyrun/src/plugins.rs:17-24 | The loop appends exactly the batch's entries after the old store and changes nothing else. |
| Plugins.RuntimeState.RefreshMatches | anyrun/src/plugins.rs:76-110 | The store is empty afterwards. The dispatch plan's tasks are appended after the tasks already scheduled, which are not cancelled. `exclusive` and the post-run action are unchanged. |
| Plugins.RuntimeState.PollTask | anyrun/src/plugins.rs:97-124 | A `Ready` answer appends the batch under the task's plugin id. `Pending` leaves the store and the task as they are. `Cancelled` and `Ready` retire the task. |
| GMatches.GetField | anyrun/src/gmatch.rs:116-128 | Reading a property fails exactly for a name outside the eight registered ones (`unimplemented!`). |
| GMatches.SetField | anyrun/src/gmatch.rs:45-114 | Setting an unknown name fails. For a registered name, it succeeds exactly when the value has the type that name's `ParamSpec` registers; for `title`, additionally, the string must not be NULL. |
| GMatches.StringProperties | anyrun/src/gmatch.rs:50-87 | Any string can be stored into `title`, `description` and `icon`. NULL can be stored into `description` and `icon` but fails for `title`. |
| GMatches.GetAfterSet | anyrun/src/gmatch.rs:62-128 | Reading a property returns the last value written to it. |
| GMatches.SetLeavesOthers | anyrun/src/gmatch.rs:62-114 | Setting one property leaves every other property, and every unknown name's error, as it was. |
| GMatches.IdOf | anyrun/src/gmatch.rs:177-185 | The id reads as present exactly when `id-some` is set, and then it is the `id` field. |
| GMatches.WithId | anyrun/src/gmatch.rs:187-195 | `set_id(Some(n))` stores `id = n` and `id-some = true`; `set_id(None)` stores `id = 0` and `id-some = false`. No other field changes. |
| GMatches.IdRoundTrip | anyrun/src/gmatch.rs:177-195 | `get_id` after `set_id(v)` is `v`, for `Some(n)` and for `None`. |
| GMatches.FromRMatch | anyrun/src/gmatch.rs:315-339 | The conversion copies title, description, use-pango, icon and id, and sets `plugin-id = 0` and `first = true`. |
| GMatches.ToRMatch | anyrun/src/gmatch.rs:341-359 | The record has the fields' title, description, use-pango and icon, and the id as `get_id` reads it. |
| GMatches.RMatchRoundTrip | anyrun/src/gmatch.rs:315-359 | `RMatch` to `GMatch` and back gives a record equal to the original, field for field. |
| GMatches.FieldsRoundTrip | anyrun/src/gmatch.rs:315-359 | `GMatch` to `RMatch` and back keeps every property except the two group fields, which are reset. This holds when `id` is 0 whenever `id-some` is false, as `set_id` guarantees. |
| GMatches.GMatch.constructor | anyrun/src/gmatch.rs:141-143 | A new object has every field at its default. |
| GMatches.GMatch.SetProperty | anyrun/src/gmatch.rs:45-114 | The named field is replaced as `SetField` says. An unknown name or a mistyped value fails, and the object is unchanged. |
| GMatches.GMatch.Property | anyrun/src/gmatch.rs:116-128 | The result is the named field's value; it is an error exactly for an unknown name. |
| GMatches.GMatch.GetTitle | anyrun/src/gmatch.rs:145-147 | The result is the `title` field. |
| GMatches.GMatch.SetTitle | anyrun/src/gmatch.rs:149-151 | Only `title` changes. |
| GMatches.GMatch.GetDescription | anyrun/src/gmatch.rs:153-155 | The result is the `description` field. |
| GMatches.GMatch.SetDescription | anyrun/src/gmatch.rs:157-159 | Only `description` changes. |
| GMatches.GMatch.GetUsePango | anyrun/src/gmatch.rs:161-163 | The result is the `use-pango` field. |
| GMatches.GMatch.SetUsePango | anyrun/src/gmatch.rs:165-167 | Only `use-pango` changes. |
| GMatches.GMatch.GetIcon | anyrun/src/gmatch.rs:169-171 | The result is the `icon` field. |
| GMatches.GMatch.SetIcon | anyrun/src/gmatch.rs:173-175 | Only `icon` changes. |
| GMatches.GMatch.GetId | anyrun/src/gmatch.rs:177-185 | The result is `Some(id)` exactly when `id-some` is set, and None otherwise. |
| GMatches.GMatch.SetId | anyrun/src/gmatch.rs:187-195 | The two writes leave the object as `WithId` describes. |
| GMatches.GMatch.GetPluginId | anyrun/src/gmatch.rs:197-199 | The result is the `plugin-id` field. |
| GMatches.GMatch.SetPluginId | anyrun/src/gmatch.rs:201-203 | Only `plugin-id` changes. |
| GMatches.GMatch.GetFirst | anyrun/src/gmatch.rs:205-207 | The result is the `first` field. |
| GMatches.GMatch.SetFirst | anyrun/src/gmatch.rs:209-211 | Only `first` changes. |
| GMatches.GMatch.FromRecord | anyrun/src/gmatch.rs:315-339 | Running the setters on a new object leaves it in the state `FromRMatch` describes. |
| GMatches.GMatch.ToRecord | anyrun/src/gmatch.rs:341-359 | The record read through the getters has the object's title, description, use-pango and icon, and its id as `get_id` reads it. |
| Ui.Selection | anyrun/src/ui.rs:204-227 | The lookup succeeds iff the row is in the store and its plugin id names a loaded plugin. A missing row and a missing plugin are distinct errors. On success the plugin is the one at the entry's plugin id, and it is asked about the entry converted back to an `RMatch`. |
| Ui.Session.constructor | anyrun/src/ui.rs:104 | A new session has an empty debounce slot and no pending timer. |
| Ui.Session.EntryChanged | anyrun/src/ui.rs:105-119 | An edit removes the pending timer, clears `exclusive` and schedules a new timer, which becomes the only pending one. Nothing is refreshed yet, and at most one timer remains pending. |
| Ui.Session.DebounceFired | anyrun/src/ui.rs:114-117 | The timer clears the slot, then refreshes with the entry's current text. Afterwards no timer is pending and the store is empty. |
| Ui.Session.HandleSelectionActivation | anyrun/src/ui.rs:204-244 | Through the `Activated` predicate: the result is the lookup error or the plugin's answer. The entry text and the timers are untouched. Lookup errors change nothing. `Close` closes and changes neither `exclusive` nor the post-run action. `Refresh(b)` sets `exclusive` to the plugin when b holds, clears it otherwise, and refreshes with the window still open. `Copy(bytes)` records the copy and closes. `Stdout(bytes)` writes exactly `bytes` when the write succeeds, and closes either way. |
| Ui.Session.Activate | anyrun/src/ui.rs:124-151 | With no selected row, the result is None and nothing changes. With one, the result and the new state are those `HandleSelectionActivation` gives for that row: the lookup error and no change, or the plugin's answer with its effect on the window, `exclusive`, the store, the poll tasks, the post-run action and standard output. |
| Utf8.DecodeFirst | anyrun/src/utils.rs:88 | A well-formed leading sequence takes as many bytes as its scalar value's UTF-8 width, and a zero byte decodes to one NUL. |
| Utf8.Decode | anyrun/src/utils.rs:88 | A decoded text re-encodes to exactly as many bytes as were decoded. |
| Utf8.Encode | anyrun/src/utils.rs:88 | A scalar value's encoding is as many bytes as its UTF-8 width. |
| Utf8.EncodeString | anyrun/src/utils.rs:88 | A string's encoding is as long as its UTF-8 length. |
| Utf8.DecodeFirstOfEncode | anyrun/src/utils.rs:88 | An encoded scalar value is decoded back to itself, with its width, whatever bytes follow it. |
| Utf8.EncodeOfDecodeFirst | anyrun/src/utils.rs:88 | The bytes that a well-formed leading sequence takes are the encoding of the scalar value it decodes to. |
| Utf8.EncodeOfTwo | anyrun/src/utils.rs:88 | A well-formed two-byte sequence is the encoding of the scalar value it stands for. |
| Utf8.EncodeOfThree | anyrun/src/utils.rs:88 | A well-formed three-byte sequence is the encoding of the scalar value it stands for. |
| Utf8.EncodeOfFour | anyrun/src/utils.rs:88 | A well-formed four-byte sequence is the encoding of the scalar value it stands for. |
| Utf8.DecodeOfEncode | anyrun/src/utils.rs:88 | Every string's encoding is accepted and decodes back to that string. |
| Utf8.EncodeOfDecode | anyrun/src/utils.rs:88 | Every accepted byte sequence is the encoding of the text it decodes to. |
| Utf8.DecodeIffEncode | anyrun/src/utils.rs:88 | Bytes decode to a string exactly when they are that string's encoding. |
| Utf8.DecodeConcat | anyrun/src/utils.rs:86-88 | Decoding two well-formed byte runs one after the other gives the two texts one after the other. |
| Utils.LeadingNuls | anyrun/src/utils.rs:90 | The result counts the NULs at the front, and the character after them is not NUL. |
| Utils.TrailingNuls | anyrun/src/utils.rs:90 | The result counts the NULs at the end, and the character before them is not NUL. |
| Utils.TrimNuls | anyrun/src/utils.rs:90 | The trimmed text is the contiguous run between the leading and the trailing NULs, so interior characters, interior NULs included, keep their order. Neither of its ends is NUL. |
| Utils.ReadBuffer | anyrun/src/utils.rs:86-87 | The buffer has exactly the buffer size. It holds the delivered bytes at the front and zeros after them. |
| Utils.ReadFromStream | anyrun/src/utils.rs:85-92 | The read fails exactly when the whole buffer is not valid UTF-8. Otherwise the result is the decoded buffer trimmed of NULs: it has no NUL at either end, and its UTF-8 length is at most the buffer size. |
| Utils.ReadFailsIffNotEncoded | anyrun/src/utils.rs:85-92 | The read fails exactly when the padded buffer is the encoding of no string. When it encodes a string, the result is that string with its NULs trimmed. |
| Utils.MessageReadsBack | anyrun/src/utils.rs:85-92 | A message whose encoding fits the buffer and has no NUL at either end is read back exactly. |
| Utils.ShortMessageReadsBack | anyrun/src/utils.rs:85-92 | A message that fits the buffer and has no NUL at either end is read back exactly. |
| Utils.DecodeZeros | anyrun/src/utils.rs:86-88 | The zero padding decodes to as many NULs. |
| Utils.TrimNulsOfPadded | anyrun/src/utils.rs:90 | Trimming a message followed by NULs gives the message back, provided its ends are not NUL. |
| Utils.ImageSourceOf | anyrun/src/utils.rs:70-83 | The icon is loaded as a file exactly when it is an absolute path, and is used as a themed icon name otherwise. |
| Utils.HandlePostRunAction | anyrun/src/utils.rs:23-37 | Something is served exactly when the pending action is `Copy`, and then it is that action's bytes. |

## Left out

I/O and foreign code:

- Dynamic loading, ABI validation and each plugin's `init` call (plugins.rs:69-72) are foreign code. A plugin is a value with an `info` key and its library path. The `info` function pointer is compared as an opaque number.
- The GTK side is UI over foreign libraries, so the model has none of:
  - window and layer-shell setup, CSS and key routing;
  - the row widgets of `GMatch::to_widget` and `build_label`;
  - the `ParamSpec` registration, beyond the property names and their glib types.
- `setup_activation`'s conversion of row indices through `i32`/`u32` is not modelled. Its panics on negative or oversized indices cannot occur for the row numbers the list box hands out.
- Actually reading the socket, and the value of `SOCKET_BUF_SIZE`: the constant is not defined in the files modelled, so it is a parameter. The socket service and remote commands of main.rs are IPC plumbing.
- The fork of `handle_post_run_action` and the clipboard server are OS I/O. Only the decision whether the `Copy` bytes are served is modelled.
- Paths and `ANYRUN_PLUGINS` are strings of `char`, while Unix paths and `env::var_os` values are bytes (`OsString`), so a directory name that is not UTF-8 cannot be represented. Resolution only looks at the ASCII `/` and `:`, so no step of the modelled code depends on this.
- The error log of a failed stdout write is not modelled; only whether the bytes reached standard output is.
- Ui.Session.HandleSelectionActivation: does not model a partial write; a failed `write_all` is taken to write nothing.

Timing and plugin internals:

- Real time is not modelled. The model has neither the 1 ms poll interval nor the `smooth_input_time` delay. Timers are ids that fire when the caller says so.
- Plugins.RuntimeState.RefreshMatches: the query oracle is a function of the plugin value and the input. Within one refresh, two equal `Plugin` values in the list therefore receive the same token, while the source calls `get_matches` once per list entry and may receive two different tokens.
- The plugin side of polling (whether `poll_matches` eventually stops answering `Pending`) belongs to the plugins and is not modelled.

Model representation:

- glib's runtime type check on `set_property` values, and the `expect` that fails when NULL is stored into the `String` title, are modelled as the `WrongType` error instead of a panic.
- glib keeps a string property as a NUL-terminated C string, so a title, description or icon containing U+0000 is either cut at the first NUL or refused, depending on the glib-rs version. The model stores every string as given, so strings containing U+0000 are outside what the following members promise:
- GMatches.SetField: stores a string value unchanged; for a string containing U+0000 the source keeps less, or fails.
- GMatches.StringProperties: "any string can be stored" holds in the source only for strings without U+0000.
- GMatches.GetAfterSet: a string containing U+0000 does not read back as written in the source.
- GMatches.FromRMatch: the record's strings are copied unchanged; the source's setters cut or refuse strings containing U+0000.
- GMatches.RMatchRoundTrip: the round trip holds in the source only for records whose strings contain no U+0000.
- GMatches.GMatch.SetTitle: a title containing U+0000 is stored as given, not cut or refused.
- GMatches.GMatch.SetDescription: a description containing U+0000 is stored as given, not cut or refused.
- GMatches.GMatch.SetIcon: an icon containing U+0000 is stored as given, not cut or refused.
- Plugins.Batch: "each entry converts back to its match" holds in the source only for matches whose strings contain no U+0000.
- The list store holds property snapshots (`Fields`) of the `GMatch` objects, not object references. Aliasing between the store and other holders of an object is therefore not modelled. The source never changes an object after appending it.

Deliberate choices:

- The stale-task behaviour is kept as the source has it: `refresh_matches` does not cancel the poll tasks of the previous cycle. A batch that resolves late lands in the new cycle's store under the plugin id it was dispatched with. `Plugins.StaleTaskScenario` shows this, and `Plugins.ArrivalOrderScenario` shows batches landing in arrival order.
