# Oxide.Ext.Data — a Dafny model of the data manager and the write-queue drain

Oxide.Ext.Data is an Oxide (Rust game server) extension that keeps plugin data in memory
and persists it through Oxide's `DataFileSystem`. This project models two parts of it:

- **The data manager** (`Oxide.Ext.Data/DataManager.cs`). It holds two registries:
  - `playersData` maps a player id to a table from plugin name to record;
  - `pluginsData` maps a plugin name to a table from data name to record.

  Over them it offers get, insert-if-absent (set), create (set, then write), save, load
  (with version reconciliation and backups), unload and loaded-state checks. Files live under
  `PlayersData/<id>/<plugin>`, `PluginsData/<plugin>/<name>` and `Backup/<path>`.
- **The per-frame drain** (`Oxide.Ext.Data/Core/ExtDataCore.cs`). `OnFrame` persists one
  queued write per frame. When the queue is empty it clears the two batch flags and
  unsubscribes itself. `EnableSaving` subscribes it again, `Loaded` unsubscribes it, and
  `Unload` sets `stopped`.

Layout:

- `wrappers.dfy`: `Option`.
- `records.dfy`: the record datatype, which is an opaque payload plus a three-part version,
  and the 64-bit player id `u64`.
- `storage.dfy`: the storage backend, class `DataFileSystem`. It holds:
  - a map from path to what the file reads as (`None` is a file that deserialises to null);
  - the log of every `WriteObject` call;
  - `Apply`, the pure meaning of a batch of writes.
- `paths.dfy`: the folder constants, the decimal rendering of a player id, the three path
  builders, and their injectivity and disjointness.
- `registry.dfy`: the two-level tables as values:
  - `Get`;
  - `Set` (insert-if-absent);
  - `Remove` (remove one entry and prune an emptied outer key).
- `data_manager.dfy`:
  - class `DataManager`, with the registries as `map` fields that its methods reassign;
  - `LoadPlan`, the load policy;
  - the functions that list the writes a save makes.
- `ext_data_core.dfy`:
  - class `ExtDataCore`, with the queue as a `seq`, the two batch flags, `stopped`, and
    `armed` (whether `OnFrame` is subscribed);
  - `OnFrameStep`/`RunTicks`, the drain over many frames as a function.

Design decisions:

- The source iterates a `Hash` in unspecified order. A save or unload of a whole key
  therefore returns a ghost `order`. The contract states that `order` lists every affected
  entry exactly once, and that the writes made are those of `order`, in that order.
- The plugin manager is a map from plugin name to `Plugin(isLoaded, version)`. A name that is
  absent is the null plugin.
- A record handed in as null is `None`.
- `ExtDataCore.cs` uses a `savingQueue`, a `stopped` flag and batch flags that belong to a
  later version of the data manager. The declaring file of that version is not part of this
  model. The drain is therefore a class of its own, and its queue holds the same `Write`
  jobs the backend logs.

Behaviour of the code that the model keeps:

- Of the save operations, only `TrySaveAllData` refuses while `isUnloading` is set (Oxide.Ext.Data/DataManager.cs:150-151).
  The per-entry and whole-key saves have no such check (Oxide.Ext.Data/DataManager.cs:173-225).
- On an empty queue, a single `OnFrame` call both clears the batch flags and unsubscribes
  (Oxide.Ext.Data/Core/ExtDataCore.cs:112-118).
- `stopped` can be reset. The updater's `Error` and `Success` handlers set it back to false
  (Oxide.Ext.Data/Core/ExtDataCore.cs:132, 139), so nothing in the model makes it permanent.
- A load that finds a stale file writes the backup before it creates the default
  (Oxide.Ext.Data/DataManager.cs:256-261). The create can still fail when the entry is
  already loaded, and the backup is written even then.

## Model

| member | source | states |
|---|---|---|
| Paths.PlayerPath | Oxide.Ext.Data/DataManager.cs:244 | a player file lies in `PlayersData/` and its path ends in "/" followed by the plugin name |
| Paths.PluginPath | Oxide.Ext.Data/DataManager.cs:279 | a plugin file lies in `PluginsData/` and its path ends in "/" followed by the data name |
| Paths.BackupPath | Oxide.Ext.Data/DataManager.cs:374 | a backup lies in `Backup/`, followed by the original path kept whole |
| Paths.DecimalString | Oxide.Ext.Data/DataManager.cs:244 | the rendered player id is a non-empty digit string with a leading zero only for id 0 |
| Paths.DecimalRoundTrip | Oxide.Ext.Data/DataManager.cs:244 | parsing the rendered id gives back the id |
| Paths.PlayerPathInjective | Oxide.Ext.Data/DataManager.cs:244 | two player paths are equal only for the same player and the same plugin |
| Paths.PlayerPathsDistinct | Oxide.Ext.Data/DataManager.cs:122 | distinct (player, plugin) pairs are written to distinct files |
| Paths.PluginPathInjective | Oxide.Ext.Data/DataManager.cs:279 | within one plugin, distinct data names are written to distinct files |
| Paths.PluginPathsDistinct | Oxide.Ext.Data/DataManager.cs:140 | across plugins whose names hold no slash, distinct (plugin, name) pairs are written to distinct files |
| Paths.PluginPathsCollide | Oxide.Ext.Data/DataManager.cs:279 | without that restriction, plugin "a/b" data "c" and plugin "a" data "b/c" share one file |
| Paths.FoldersDisjoint | Oxide.Ext.Data/DataManager.cs:17-19 | player files, plugin files and backups never share a path |
| Registry.Set | Oxide.Ext.Data/DataManager.cs:60-102 | insert-if-absent: a loaded entry gives false and an unchanged table; otherwise it gives true and the entry holds the data; an absent outer key gets a one-entry table; every other entry is unchanged; no empty inner table appears |
| Registry.Remove | Oxide.Ext.Data/DataManager.cs:312-316 | the entry is gone and every other entry is unchanged; the outer key is dropped exactly when it held only that entry; no empty inner table appears |
| Registry.RemoveUndoesSet | Oxide.Ext.Data/DataManager.cs:305-321 | on a table without empty inner tables, inserting an absent entry and then unloading it restores the table |
| Manager.GetPlugin | Oxide.Ext.Data/DataManager.cs:236 | the lookup finds a plugin exactly when the plugin manager knows the name, and then gives what it reports |
| Manager.LoadPlan | Oxide.Ext.Data/DataManager.cs:231-298 | the load policy: refuse while unloading, for an absent or unloaded plugin, or for a file that reads as null; create a default for a missing file; archive and recreate when version checking finds the versions differ; otherwise insert the stored record |
| Manager.SavedRecordReloads | Oxide.Ext.Data/DataManager.cs:256-263 | save/load round trip: a load of a path just written inserts that record, unless version checking finds it stale, when it is archived and replaced |
| Manager.PlayerWrites | Oxide.Ext.Data/DataManager.cs:185-198 | a save of listed player entries makes one write per entry |
| Manager.PluginWrites | Oxide.Ext.Data/DataManager.cs:212-225 | a save of listed plugin entries makes one write per entry |
| Manager.PlayerWritesStore | Oxide.Ext.Data/DataManager.cs:173-183 | after saving a list of player entries, each listed entry's file holds that entry's record |
| Manager.PluginWritesStore | Oxide.Ext.Data/DataManager.cs:200-210 | after saving a list of plugin entries, each listed entry's file holds that entry's record, provided no listed plugin name contains a slash |
| Manager.PluginWritesSparePlayer | Oxide.Ext.Data/DataManager.cs:165-168 | saving plugin entries leaves every player file as it was |
| Manager.SaveAllStoresEveryEntry | Oxide.Ext.Data/DataManager.cs:148-171 | after a full save, every loaded player entry's file holds its in-memory record; so does every loaded plugin entry's file when plugin names hold no slash |
| Manager.DataManager.constructor | Oxide.Ext.Data/DataManager.cs:29-32 | both registries start empty, `isUnloading` starts false, and the invariant holds |
| Manager.DataManager.IsLoadedPlayer | Oxide.Ext.Data/DataManager.cs:381-391 | when the player's key is absent, no entry of that player can be found in the registry |
| Manager.DataManager.IsLoadedPlayerData | Oxide.Ext.Data/DataManager.cs:393-406 | the entry check succeeds exactly when the registry lookup of that entry finds a record |
| Manager.DataManager.PlayerLoadedIffSomeEntry | Oxide.Ext.Data/DataManager.cs:381-406 | under the no-empty-inner-table invariant, a player is loaded exactly when some entry of theirs is loaded, so the whole-key and entry checks agree |
| Manager.DataManager.IsLoadedPlugin | Oxide.Ext.Data/DataManager.cs:408-418 | when the plugin's key is absent, no entry of that plugin can be found in the registry |
| Manager.DataManager.IsLoadedPluginData | Oxide.Ext.Data/DataManager.cs:420-433 | the entry check succeeds exactly when the registry lookup of that entry finds a record |
| Manager.DataManager.PluginLoadedIffSomeEntry | Oxide.Ext.Data/DataManager.cs:408-433 | under the no-empty-inner-table invariant, a plugin is loaded exactly when some entry of its data is loaded, so the whole-key and entry checks agree |
| Manager.DataManager.TryGetPlayerData | Oxide.Ext.Data/DataManager.cs:38-45 | yields a record exactly when the player and the entry are both loaded, and then the stored one |
| Manager.DataManager.TryGetPluginData | Oxide.Ext.Data/DataManager.cs:47-54 | yields a record exactly when the plugin and the entry are both loaded, and then the stored one |
| Manager.DataManager.TrySetPlayerData | Oxide.Ext.Data/DataManager.cs:60-80 | the result and the new player registry are those of `Registry.Set`; the invariant is kept |
| Manager.DataManager.TrySetPluginData | Oxide.Ext.Data/DataManager.cs:82-102 | the result and the new plugin registry are those of `Registry.Set`; the invariant is kept |
| Manager.DataManager.TryCreatePlayerData | Oxide.Ext.Data/DataManager.cs:108-124 | null data gives false, no change and no write; otherwise it is `Set`, followed by exactly one write of the data to the player path, made only when the set succeeds |
| Manager.DataManager.TryCreatePluginData | Oxide.Ext.Data/DataManager.cs:126-142 | null data gives false, no change and no write; otherwise it is `Set`, followed by exactly one write of the data to the plugin path, made only when the set succeeds |
| Manager.DataManager.TrySavePlayerData | Oxide.Ext.Data/DataManager.cs:173-183 | succeeds exactly when the entry is loaded, and then writes its record to its path; otherwise writes nothing |
| Manager.DataManager.TrySavePluginData | Oxide.Ext.Data/DataManager.cs:200-210 | succeeds exactly when the entry is loaded, and then writes its record to its path; otherwise writes nothing |
| Manager.DataManager.TrySavePlayer | Oxide.Ext.Data/DataManager.cs:185-198 | succeeds exactly when the player is loaded; it then writes every entry of that player once, in some order, and nothing else |
| Manager.DataManager.TrySavePlugin | Oxide.Ext.Data/DataManager.cs:212-225 | succeeds exactly when the plugin is loaded; it then writes every entry of that plugin once, in some order, and nothing else |
| Manager.DataManager.SaveEveryPlayer | Oxide.Ext.Data/DataManager.cs:160-163 | writes every loaded player entry exactly once, and nothing else |
| Manager.DataManager.SaveEveryPlugin | Oxide.Ext.Data/DataManager.cs:165-168 | writes every loaded plugin entry exactly once, and nothing else |
| Manager.DataManager.TrySaveAllData | Oxide.Ext.Data/DataManager.cs:148-171 | false while unloading or when both registries are empty, with no write; otherwise writes every loaded player entry once and then every plugin entry once; each saved file then holds its record; the registries are unchanged |
| Manager.DataManager.TryLoadPlayerData | Oxide.Ext.Data/DataManager.cs:231-264 | follows `LoadPlan`: a refusal changes nothing and writes nothing; a missing or stale file creates the default, and writes the backup first when stale; otherwise the stored record is inserted without a write |
| Manager.DataManager.TryLoadPluginData | Oxide.Ext.Data/DataManager.cs:266-299 | the same policy for a plugin's named data under the plugin path |
| Manager.DataManager.TryUnloadPlayerData | Oxide.Ext.Data/DataManager.cs:305-321 | succeeds exactly when not unloading and the entry is loaded; it then writes the entry's record and the registry becomes `Registry.Remove`; otherwise nothing changes; the invariant is kept |
| Manager.DataManager.TryUnloadPlayer | Oxide.Ext.Data/DataManager.cs:323-334 | succeeds exactly when not unloading and the player is loaded; it then writes every entry of the player once and drops the player's key; otherwise nothing changes |
| Manager.DataManager.TryUnloadPluginData | Oxide.Ext.Data/DataManager.cs:336-352 | succeeds exactly when not unloading and the entry is loaded; it then writes the entry's record and the registry becomes `Registry.Remove`; otherwise nothing changes; the invariant is kept |
| Manager.DataManager.TryUnloadPlugin | Oxide.Ext.Data/DataManager.cs:354-365 | succeeds exactly when not unloading and the plugin is loaded; it then writes every entry of the plugin once and drops the plugin's key; otherwise nothing changes |
| Manager.DataManager.BackupData | Oxide.Ext.Data/DataManager.cs:371-375 | makes exactly one write: the record, unchanged, to `Backup/` followed by its path |
| Core.OnFrameStep | Oxide.Ext.Data/Core/ExtDataCore.cs:100-119 | one call writes at most one job; the writes followed by the remaining queue are the old queue, so every dequeued job is handed to `WriteObject` and none is invented; `stopped` is untouched; when an unstopped call writes nothing, both flags end up clear and the hook unsubscribed |
| Core.AtMostOneWritePerTick | Oxide.Ext.Data/Core/ExtDataCore.cs:105-110 | n frames write at most n jobs |
| Core.DrainsInOrder | Oxide.Ext.Data/Core/ExtDataCore.cs:105-109 | while subscribed and not stopped, k frames write exactly the first k queued jobs, in queue order, and leave the rest queued |
| Core.RunTicksSplit | Oxide.Ext.Data/Core/ExtDataCore.cs:100-119 | a + b frames are a frames followed by b frames |
| Core.DrainCompletes | Oxide.Ext.Data/Core/ExtDataCore.cs:105-118 | N queued jobs are written in N frames; the next frame clears both batch flags and unsubscribes |
| Core.IdleWhileDisarmed | Oxide.Ext.Data/Core/ExtDataCore.cs:41-44 | while unsubscribed, frames change nothing and write nothing |
| Core.FrozenWhileStopped | Oxide.Ext.Data/Core/ExtDataCore.cs:100-103 | while stopped, frames change nothing and write nothing |
| Core.ExtDataCore.constructor | Oxide.Ext.Data/Core/ExtDataCore.cs:21-39 | the queue, the batch flags and `stopped` keep the data manager's existing values, except that `stopped` becomes true when the auto-update check starts (AutoUpdateExtension, lines 35-37 and 145); `OnFrame` starts subscribed as a freshly registered hook |
| Core.ExtDataCore.Loaded | Oxide.Ext.Data/Core/ExtDataCore.cs:41-44 | unsubscribes `OnFrame`; nothing else changes |
| Core.ExtDataCore.Unload | Oxide.Ext.Data/Core/ExtDataCore.cs:51-53 | sets `stopped`; nothing else changes |
| Core.ExtDataCore.EnableSaving | Oxide.Ext.Data/Core/ExtDataCore.cs:88-90 | subscribes `OnFrame`, which is idempotent; nothing else changes |
| Core.ExtDataCore.OnFrame | Oxide.Ext.Data/Core/ExtDataCore.cs:100-119 | one `OnFrameStep`: while stopped it is a no-op; with a non-empty queue it removes and writes only the head, leaving the flags and the subscription alone; with an empty queue it clears both flags, unsubscribes and writes nothing |

## Left out

- Logging: `SendLog` and every `debug`-gated message (no effect on state). `ToggleDebug` is left out with them.
- Serialisation: the JSON serialisation inside `WriteObject`/`ReadObject`. The backend is a map from path to the record last written there.
- Typed reads: the generic cast in `BaseData.TryGetData`. A get yields the stored record itself.
- Aliasing of records: in the source a record is a `BaseData` object, and a get hands the plugin the stored object itself (Oxide.Ext.Data/DataManager.cs:44, 53). Plugins edit it in place, and the saves and unloads persist those edits. Here `Record` is an immutable value and no operation changes a loaded entry. Such an edit appears in the model only as a different registry value at the next call.
- Integer width: 64-bit wrap-around of player ids. Ids are only rendered in paths, never computed with.
- The updater:
  - the HTTP self-updater (`ExtDataCoreComponent`, `ExtDataAutoUpdater.cs`): network I/O and Unity coroutines;
  - with it, who resets `stopped` to false.
- Other ExtDataCore members: the constructor's `Core.Remove()` and `Instance` bookkeeping, and `OnServerSave`, which only calls `TrySaveAllData`.
- Configuration and lifecycle: `DataConfig.cs`, `DataExtension.cs` and `ExtDataPluginLoader.cs`. `checkVersion` and `isUnloading` are plain fields set from outside.
- Queue producers: the enqueueing of save jobs and the setting of the two batch flags. They belong to a version of the data manager that is not part of this model.
- Concurrency: Unity's frame loop and Oxide's hook subscription are reduced to the `armed` flag and to `RunTicks` over frames.
- Iteration order: the order of `Hash` iteration is unspecified. The ghost `order` stands for it.
- Manager.PluginWritesStore: the property that each plugin file holds its own record is proved only under an assumption of the model, that plugin names hold no '/'. The source never checks this: a plugin sets its own `Name` string (Oxide.Ext.Data/Core/ExtDataCore.cs:24), and `TryLoadPluginData` accepts any name the plugin manager reports as loaded (Oxide.Ext.Data/DataManager.cs:266-272). Two entries whose plugin names differ by such a slash share one file (`Paths.PluginPathsCollide`); `Manager.SaveAllStoresEveryEntry` and `Manager.DataManager.TrySaveAllData` carry the same assumption for their plugin half.
- Failing backend calls: every `WriteObject` and `ReadObject` is assumed to return normally. A call that throws is not modelled, and nothing in the data manager or in `OnFrame` catches one. If a write throws:
  - `TryCreatePlayerData`/`TryCreatePluginData` leave the record in the registry with no file, and the caller gets the exception instead of true (Oxide.Ext.Data/DataManager.cs:117-122, 135-140);
  - `TrySaveAllData` stops part way through its loops, and the remaining entries stay unsaved (Oxide.Ext.Data/DataManager.cs:160-168);
  - `OnFrame` has already dequeued the job before writing it, so the job is lost (Oxide.Ext.Data/Core/ExtDataCore.cs:107-108).

  The save properties (`Manager.SaveAllStoresEveryEntry`, `Manager.DataManager.TrySaveAllData`) and the drain properties (`Core.OnFrameStep`, `Core.DrainsInOrder`, `Core.DrainCompletes`) hold only when every write succeeds.
