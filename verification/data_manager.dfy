/**
 * The data manager: the two registries, the loaded-state checks and the get, set,
 * create, save, load, unload and backup operations over them. Every WriteObject call
 * goes straight to the storage backend `fs`.
 */
module Manager {
  import opened Wrappers
  import opened Records
  import opened Storage
  import opened Paths
  import opened Registry

  /** What the plugin manager reports about a plugin: whether it is loaded, and its version. */
  datatype Plugin = Plugin(isLoaded: bool, version: Version)

  /** The plugin manager's lookup; None where the source gets null. */
  function GetPlugin(pluginManager: map<string, Plugin>, name: string): (plugin: Option<Plugin>)
    ensures plugin.Some? <==> name in pluginManager
    ensures plugin.Some? ==> plugin.value == pluginManager[name]
  {
    if name in pluginManager then Some(pluginManager[name]) else None
  }

  /**
   * The decision a load makes before touching the registry: refuse; create a fresh
   * default record, after archiving `backup` when it is present; or insert the stored
   * record as it is.
   */
  datatype LoadStep = Refuse | CreateDefault(backup: Option<Record>) | Insert(stored: Record)

  /** The load and version-reconciliation policy, shared by both scopes. */
  function LoadPlan(isUnloading: bool, checkVersion: bool, plugin: Option<Plugin>,
                    files: map<string, Option<Record>>, path: string): (step: LoadStep)
    ensures isUnloading ==> step == Refuse
    ensures plugin.None? || !plugin.value.isLoaded ==> step == Refuse
    ensures path in files && files[path].None? ==> step == Refuse
    ensures !isUnloading && plugin.Some? && plugin.value.isLoaded && path !in files ==>
      step == CreateDefault(None)
    ensures step.CreateDefault? && step.backup.Some? ==>
      path in files && files[path] == step.backup &&
      checkVersion && step.backup.value.version != plugin.value.version
    ensures step.Insert? ==>
      path in files && files[path] == Some(step.stored) &&
      (!checkVersion || step.stored.version == plugin.value.version)
    ensures (!isUnloading && plugin.Some? && plugin.value.isLoaded && path in files && files[path].Some?) ==>
      step == if checkVersion && files[path].value.version != plugin.value.version
              then CreateDefault(files[path]) else Insert(files[path].value)
  {
    if isUnloading then Refuse
    else if plugin.None? || !plugin.value.isLoaded then Refuse
    else if path !in files then CreateDefault(None)
    else if files[path].None? then Refuse
    else if checkVersion && files[path].value.version != plugin.value.version then CreateDefault(files[path])
    else Insert(files[path].value)
  }

  /**
   * Save/load round trip: once a record has been written to `path`, a load of `path` by a
   * loaded plugin inserts exactly that record, unless version checking finds it stale, in
   * which case it is archived and replaced by the default.
   */
  lemma SavedRecordReloads(checkVersion: bool, plugin: Plugin, files: map<string, Option<Record>>,
                           path: string, saved: Record)
    requires plugin.isLoaded
    ensures var step := LoadPlan(false, checkVersion, Some(plugin), Apply(files, [Write(path, saved)]), path);
      if checkVersion && saved.version != plugin.version then step == CreateDefault(Some(saved))
      else step == Insert(saved)
  {
    ApplyOne(files, Write(path, saved));
  }

  /** The write that archives a stale record, if there is one. */
  function BackupWrites(path: string, backup: Option<Record>): seq<Write> {
    if backup.Some? then [Write(BackupPath(path), backup.value)] else []
  }

  /** The writes that save the player entries listed in `order`, in that order. */
  function PlayerWrites(m: Table<u64>, order: seq<(u64, string)>): (ws: seq<Write>)
    requires AllLoaded(m, order)
    ensures |ws| == |order|
    decreases |order|
  {
    if order == [] then []
    else
      var last := order[|order| - 1];
      PlayerWrites(m, order[..|order| - 1]) + [Write(PlayerPath(last.0, last.1), m[last.0][last.1])]
  }

  lemma PlayerWritesSnoc(m: Table<u64>, order: seq<(u64, string)>, playerId: u64, pluginName: string)
    requires AllLoaded(m, order)
    requires IsLoaded(m, playerId, pluginName)
    ensures PlayerWrites(m, order + [(playerId, pluginName)])
      == PlayerWrites(m, order) + [Write(PlayerPath(playerId, pluginName), m[playerId][pluginName])]
  {
    assert (order + [(playerId, pluginName)])[..|order|] == order;
  }

  /** The writes that save the plugin entries listed in `order`, in that order. */
  function PluginWrites(m: Table<string>, order: seq<(string, string)>): (ws: seq<Write>)
    requires AllLoaded(m, order)
    ensures |ws| == |order|
    decreases |order|
  {
    if order == [] then []
    else
      var last := order[|order| - 1];
      PluginWrites(m, order[..|order| - 1]) + [Write(PluginPath(last.0, last.1), m[last.0][last.1])]
  }

  lemma PluginWritesSnoc(m: Table<string>, order: seq<(string, string)>, pluginName: string, dataName: string)
    requires AllLoaded(m, order)
    requires IsLoaded(m, pluginName, dataName)
    ensures PluginWrites(m, order + [(pluginName, dataName)])
      == PluginWrites(m, order) + [Write(PluginPath(pluginName, dataName), m[pluginName][dataName])]
  {
    assert (order + [(pluginName, dataName)])[..|order|] == order;
  }

  /**
   * `order` lists every entry of `m` whose outer key is in `keys`, each exactly once,
   * and nothing else.
   */
  ghost predicate EnumeratesEntries<K>(order: seq<(K, string)>, m: Table<K>, keys: set<K>) {
    && (forall i, j :: 0 <= i < j < |order| ==> order[i] != order[j])
    && AllLoaded(m, order)
    && (forall i :: 0 <= i < |order| ==> order[i].0 in keys)
    && (forall k, n :: k in keys && IsLoaded(m, k, n) ==> (k, n) in order)
  }

  /**
   * Part way through saving the entries under outer key `k`: `order` lists, each once,
   * exactly the inner keys of `inner` that are no longer in `remaining`.
   */
  ghost predicate Progress<K>(order: seq<(K, string)>, k: K, inner: map<string, Record>, remaining: set<string>) {
    && remaining <= inner.Keys
    && (forall i, j :: 0 <= i < j < |order| ==> order[i] != order[j])
    && (forall i :: 0 <= i < |order| ==> order[i].0 == k && order[i].1 in inner && order[i].1 !in remaining)
    && (forall n :: n in inner && n !in remaining ==> (k, n) in order)
  }

  lemma ProgressStep<K>(order: seq<(K, string)>, k: K, inner: map<string, Record>, remaining: set<string>, name: string)
    requires Progress(order, k, inner, remaining) && name in remaining
    ensures Progress(order + [(k, name)], k, inner, remaining - {name})
  {
    var order' := order + [(k, name)];
    forall n | n in inner && n !in remaining - {name}
      ensures (k, n) in order'
    {
      if n != name {
        assert (k, n) in order;
      } else {
        assert order'[|order|] == (k, n);
      }
    }
  }

  lemma ProgressDone<K>(order: seq<(K, string)>, m: Table<K>, k: K)
    requires k in m && Progress(order, k, m[k], {})
    ensures EnumeratesEntries(order, m, {k})
  {
  }

  /** Part way through saving a whole registry: `order` covers the outer keys not in `remaining`. */
  ghost predicate OuterProgress<K>(order: seq<(K, string)>, m: Table<K>, remaining: set<K>) {
    && remaining <= m.Keys
    && (forall i, j :: 0 <= i < j < |order| ==> order[i] != order[j])
    && AllLoaded(m, order)
    && (forall i :: 0 <= i < |order| ==> order[i].0 !in remaining)
    && (forall k, n :: k in m && n in m[k] && k !in remaining ==> (k, n) in order)
  }

  lemma OuterProgressStep<K>(order: seq<(K, string)>, m: Table<K>, remaining: set<K>, k: K, sub: seq<(K, string)>)
    requires OuterProgress(order, m, remaining) && k in remaining
    requires EnumeratesEntries(sub, m, {k})
    ensures OuterProgress(order + sub, m, remaining - {k})
  {
    var order' := order + sub;
    forall i, j | 0 <= i < j < |order'|
      ensures order'[i] != order'[j]
    {
      if j >= |order| && i < |order| {
        assert order'[j] == sub[j - |order|];
      }
    }
    forall k', n | k' in m && n in m[k'] && k' !in remaining - {k}
      ensures (k', n) in order'
    {
      if k' == k {
        assert (k', n) in sub;
      } else {
        assert (k', n) in order;
      }
    }
  }

  lemma OuterProgressDone<K>(order: seq<(K, string)>, m: Table<K>)
    requires OuterProgress(order, m, {})
    ensures EnumeratesEntries(order, m, m.Keys)
  {
  }

  lemma {:induction false} PlayerWritesConcat(m: Table<u64>, a: seq<(u64, string)>, b: seq<(u64, string)>)
    requires AllLoaded(m, a)
    requires AllLoaded(m, b)
    ensures PlayerWrites(m, a + b) == PlayerWrites(m, a) + PlayerWrites(m, b)
    decreases |b|
  {
    if b == [] {
      assert a + b == a;
    } else {
      var init, last := b[..|b| - 1], b[|b| - 1];
      assert b == init + [last];
      assert a + b == (a + init) + [last];
      PlayerWritesConcat(m, a, init);
      PlayerWritesSnoc(m, a + init, last.0, last.1);
      PlayerWritesSnoc(m, init, last.0, last.1);
    }
  }

  lemma {:induction false} PluginWritesConcat(m: Table<string>, a: seq<(string, string)>, b: seq<(string, string)>)
    requires AllLoaded(m, a)
    requires AllLoaded(m, b)
    ensures PluginWrites(m, a + b) == PluginWrites(m, a) + PluginWrites(m, b)
    decreases |b|
  {
    if b == [] {
      assert a + b == a;
    } else {
      var init, last := b[..|b| - 1], b[|b| - 1];
      assert b == init + [last];
      assert a + b == (a + init) + [last];
      PluginWritesConcat(m, a, init);
      PluginWritesSnoc(m, a + init, last.0, last.1);
      PluginWritesSnoc(m, init, last.0, last.1);
    }
  }

  /** After the writes of `order`, the file of a listed player entry holds that entry's record. */
  lemma {:induction false} PlayerWritesStore(files: map<string, Option<Record>>, m: Table<u64>,
                                             order: seq<(u64, string)>, playerId: u64, pluginName: string)
    requires AllLoaded(m, order) && (playerId, pluginName) in order
    ensures var after := Apply(files, PlayerWrites(m, order));
      PlayerPath(playerId, pluginName) in after && after[PlayerPath(playerId, pluginName)] == Some(m[playerId][pluginName])
    decreases |order|
  {
    var init, last := order[..|order| - 1], order[|order| - 1];
    assert order == init + [last];
    PlayerWritesSnoc(m, init, last.0, last.1);
    ApplyAppend(files, PlayerWrites(m, init), Write(PlayerPath(last.0, last.1), m[last.0][last.1]));
    if last != (playerId, pluginName) {
      assert (playerId, pluginName) in init;
      PlayerWritesStore(files, m, init, playerId, pluginName);
      PlayerPathsDistinct(last.0, last.1, playerId, pluginName);
    }
  }

  /**
   * After the writes of `order`, the file of a listed plugin entry holds that entry's record,
   * provided no listed plugin name contains a slash.
   */
  lemma {:induction false} PluginWritesStore(files: map<string, Option<Record>>, m: Table<string>,
                                             order: seq<(string, string)>, pluginName: string, dataName: string)
    requires AllLoaded(m, order) && (pluginName, dataName) in order
    requires forall i :: 0 <= i < |order| ==> '/' !in order[i].0
    ensures var after := Apply(files, PluginWrites(m, order));
      PluginPath(pluginName, dataName) in after && after[PluginPath(pluginName, dataName)] == Some(m[pluginName][dataName])
    decreases |order|
  {
    var init, last := order[..|order| - 1], order[|order| - 1];
    assert order == init + [last];
    PluginWritesSnoc(m, init, last.0, last.1);
    ApplyAppend(files, PluginWrites(m, init), Write(PluginPath(last.0, last.1), m[last.0][last.1]));
    if last != (pluginName, dataName) {
      assert (pluginName, dataName) in init;
      assert '/' !in pluginName;
      PluginWritesStore(files, m, init, pluginName, dataName);
      PluginPathsDistinct(last.0, last.1, pluginName, dataName);
    }
  }

  /** Plugin saves never touch a player file. */
  lemma {:induction false} PluginWritesSparePlayer(files: map<string, Option<Record>>, m: Table<string>,
                                                   order: seq<(string, string)>, playerId: u64, pluginName: string)
    requires AllLoaded(m, order) && PlayerPath(playerId, pluginName) in files
    ensures var after := Apply(files, PluginWrites(m, order));
      PlayerPath(playerId, pluginName) in after && after[PlayerPath(playerId, pluginName)] == files[PlayerPath(playerId, pluginName)]
    decreases |order|
  {
    if order != [] {
      var init, last := order[..|order| - 1], order[|order| - 1];
      assert order == init + [last];
      PluginWritesSnoc(m, init, last.0, last.1);
      ApplyAppend(files, PluginWrites(m, init), Write(PluginPath(last.0, last.1), m[last.0][last.1]));
      PluginWritesSparePlayer(files, m, init, playerId, pluginName);
      FoldersDisjoint(playerId, pluginName, last.0, last.1, "");
    }
  }

  /**
   * A full save leaves every loaded player entry, and every loaded plugin entry when plugin
   * names hold no slash, stored with its in-memory record.
   */
  lemma SaveAllStoresEveryEntry(files: map<string, Option<Record>>, players: Table<u64>, plugins: Table<string>,
                                playerOrder: seq<(u64, string)>, pluginOrder: seq<(string, string)>)
    requires EnumeratesEntries(playerOrder, players, players.Keys)
    requires EnumeratesEntries(pluginOrder, plugins, plugins.Keys)
    ensures var after := Apply(files, PlayerWrites(players, playerOrder) + PluginWrites(plugins, pluginOrder));
      forall k, n :: IsLoaded(players, k, n) ==>
        PlayerPath(k, n) in after && after[PlayerPath(k, n)] == Some(players[k][n])
    ensures var after := Apply(files, PlayerWrites(players, playerOrder) + PluginWrites(plugins, pluginOrder));
      (forall p :: p in plugins ==> '/' !in p) ==>
      forall p, n :: IsLoaded(plugins, p, n) ==>
        PluginPath(p, n) in after && after[PluginPath(p, n)] == Some(plugins[p][n])
  {
    var mid := Apply(files, PlayerWrites(players, playerOrder));
    ApplyConcat(files, PlayerWrites(players, playerOrder), PluginWrites(plugins, pluginOrder));
    forall k, n | IsLoaded(players, k, n)
      ensures PlayerPath(k, n) in Apply(mid, PluginWrites(plugins, pluginOrder))
      ensures Apply(mid, PluginWrites(plugins, pluginOrder))[PlayerPath(k, n)] == Some(players[k][n])
    {
      PlayerWritesStore(files, players, playerOrder, k, n);
      PluginWritesSparePlayer(mid, plugins, pluginOrder, k, n);
    }
    if forall p :: p in plugins ==> '/' !in p {
      forall p, n | IsLoaded(plugins, p, n)
        ensures PluginPath(p, n) in Apply(mid, PluginWrites(plugins, pluginOrder))
        ensures Apply(mid, PluginWrites(plugins, pluginOrder))[PluginPath(p, n)] == Some(plugins[p][n])
      {
        PluginWritesStore(mid, plugins, pluginOrder, p, n);
      }
    }
  }

  class DataManager {
    var isUnloading: bool
    var checkVersion: bool
    var playersData: Table<u64>
    var pluginsData: Table<string>
    const fs: DataFileSystem

    /** Neither registry keeps an outer key whose inner table is empty. */
    ghost predicate Valid()
      reads this
    {
      NoEmptyInner(playersData) && NoEmptyInner(pluginsData)
    }

    constructor (fs: DataFileSystem, checkVersion: bool)
      ensures Valid() && this.fs == fs && this.checkVersion == checkVersion
      ensures !isUnloading && playersData == map[] && pluginsData == map[]
    {
      this.fs := fs;
      this.checkVersion := checkVersion;
      isUnloading := false;
      playersData := map[];
      pluginsData := map[];
    }

    // Checks

    /** Fails for every entry of a player whose key is absent. */
    predicate IsLoadedPlayer(playerId: u64)
      reads this
      ensures !IsLoadedPlayer(playerId) ==> forall n :: Get(playersData, playerId, n) == None
    {
      IsLoadedKey(playersData, playerId)
    }

    predicate IsLoadedPlayerData(pluginName: string, playerId: u64)
      reads this
      ensures IsLoadedPlayerData(pluginName, playerId) <==> Get(playersData, playerId, pluginName).Some?
    {
      IsLoadedPlayer(playerId) && pluginName in playersData[playerId]
    }

    /**
     * Under the invariant, the whole-key check and the entry check agree: a player is
     * loaded exactly when some entry of theirs is.
     */
    lemma PlayerLoadedIffSomeEntry(playerId: u64)
      ensures Valid() ==> (IsLoadedPlayer(playerId) <==> exists n :: IsLoadedPlayerData(n, playerId))
    {
      if Valid() && IsLoadedPlayer(playerId) {
        var n :| n in playersData[playerId];
        assert IsLoadedPlayerData(n, playerId);
      }
    }

    /** Fails for every entry of a plugin whose key is absent. */
    predicate IsLoadedPlugin(pluginName: string)
      reads this
      ensures !IsLoadedPlugin(pluginName) ==> forall n :: Get(pluginsData, pluginName, n) == None
    {
      IsLoadedKey(pluginsData, pluginName)
    }

    predicate IsLoadedPluginData(pluginName: string, dataName: string)
      reads this
      ensures IsLoadedPluginData(pluginName, dataName) <==> Get(pluginsData, pluginName, dataName).Some?
    {
      IsLoadedPlugin(pluginName) && dataName in pluginsData[pluginName]
    }

    /**
     * Under the invariant, the whole-key check and the entry check agree: a plugin is
     * loaded exactly when some entry of its data is.
     */
    lemma PluginLoadedIffSomeEntry(pluginName: string)
      ensures Valid() ==> (IsLoadedPlugin(pluginName) <==> exists n :: IsLoadedPluginData(pluginName, n))
    {
      if Valid() && IsLoadedPlugin(pluginName) {
        var n :| n in pluginsData[pluginName];
        assert IsLoadedPluginData(pluginName, n);
      }
    }

    // Get

    function TryGetPlayerData(pluginName: string, playerId: u64): (data: Option<Record>)
      reads this
      ensures data.Some? <==> IsLoadedPlayerData(pluginName, playerId)
      ensures data.Some? ==> data.value == playersData[playerId][pluginName]
    {
      Get(playersData, playerId, pluginName)
    }

    function TryGetPluginData(pluginName: string, dataName: string): (data: Option<Record>)
      reads this
      ensures data.Some? <==> IsLoadedPluginData(pluginName, dataName)
      ensures data.Some? ==> data.value == pluginsData[pluginName][dataName]
    {
      Get(pluginsData, pluginName, dataName)
    }

    // Set

    /** Insert-if-absent into the player registry, proved equal to `Registry.Set`. */
    method TrySetPlayerData(pluginName: string, playerId: u64, data: Record) returns (ok: bool)
      modifies this`playersData
      ensures old(Valid()) ==> Valid()
      ensures (ok, playersData) == Set(old(playersData), playerId, pluginName, data)
    {
      if playerId !in playersData {
        playersData := playersData[playerId := map[pluginName := data]];
      } else {
        var playerData := playersData[playerId];
        if pluginName in playerData {
          return false;
        }
        playersData := playersData[playerId := playerData[pluginName := data]];
      }
      ok := true;
    }

    /** Insert-if-absent into the plugin registry, proved equal to `Registry.Set`. */
    method TrySetPluginData(pluginName: string, dataName: string, data: Record) returns (ok: bool)
      modifies this`pluginsData
      ensures old(Valid()) ==> Valid()
      ensures (ok, pluginsData) == Set(old(pluginsData), pluginName, dataName, data)
    {
      if pluginName !in pluginsData {
        pluginsData := pluginsData[pluginName := map[dataName := data]];
      } else {
        var pluginData := pluginsData[pluginName];
        if dataName in pluginData {
          return false;
        }
        pluginsData := pluginsData[pluginName := pluginData[dataName := data]];
      }
      ok := true;
    }

    // Create

    /** `data` is None where the source is handed a null record. */
    method TryCreatePlayerData(pluginName: string, playerId: u64, data: Option<Record>) returns (ok: bool)
      modifies this`playersData, fs
      ensures old(Valid()) ==> Valid()
      ensures data.None? ==> !ok && playersData == old(playersData) && fs.Logged([])
      ensures data.Some? ==> (ok, playersData) == Set(old(playersData), playerId, pluginName, data.value)
      ensures data.Some? ==>
        fs.Logged(if ok then [Write(PlayerPath(playerId, pluginName), data.value)] else [])
    {
      if data.None? {
        return false;
      }
      ok := TrySetPlayerData(pluginName, playerId, data.value);
      if !ok {
        return;
      }
      fs.WriteObject(PlayerPath(playerId, pluginName), data.value);
    }

    method TryCreatePluginData(pluginName: string, dataName: string, data: Option<Record>) returns (ok: bool)
      modifies this`pluginsData, fs
      ensures old(Valid()) ==> Valid()
      ensures data.None? ==> !ok && pluginsData == old(pluginsData) && fs.Logged([])
      ensures data.Some? ==> (ok, pluginsData) == Set(old(pluginsData), pluginName, dataName, data.value)
      ensures data.Some? ==>
        fs.Logged(if ok then [Write(PluginPath(pluginName, dataName), data.value)] else [])
    {
      if data.None? {
        return false;
      }
      ok := TrySetPluginData(pluginName, dataName, data.value);
      if !ok {
        return;
      }
      fs.WriteObject(PluginPath(pluginName, dataName), data.value);
    }

    // Save

    method TrySavePlayerData(pluginName: string, playerId: u64) returns (ok: bool)
      modifies fs
      ensures ok == IsLoadedPlayerData(pluginName, playerId)
      ensures fs.Logged(if ok then [Write(PlayerPath(playerId, pluginName), playersData[playerId][pluginName])] else [])
    {
      var data := TryGetPlayerData(pluginName, playerId);
      if data.None? {
        return false;
      }
      fs.WriteObject(PlayerPath(playerId, pluginName), data.value);
      ok := true;
    }

    method TrySavePluginData(pluginName: string, dataName: string) returns (ok: bool)
      modifies fs
      ensures ok == IsLoadedPluginData(pluginName, dataName)
      ensures fs.Logged(if ok then [Write(PluginPath(pluginName, dataName), pluginsData[pluginName][dataName])] else [])
    {
      var data := TryGetPluginData(pluginName, dataName);
      if data.None? {
        return false;
      }
      fs.WriteObject(PluginPath(pluginName, dataName), data.value);
      ok := true;
    }

    /** Saves every entry loaded for one player, in the registry's (unspecified) order. */
    method TrySavePlayer(playerId: u64) returns (ok: bool, ghost order: seq<(u64, string)>)
      modifies fs
      ensures ok == IsLoadedPlayer(playerId)
      ensures ok ==> EnumeratesEntries(order, playersData, {playerId})
      ensures !ok ==> order == []
      ensures fs.Logged(PlayerWrites(playersData, order))
    {
      order := [];
      if !IsLoadedPlayer(playerId) {
        ok := false;
        return;
      }
      var playerData := playersData[playerId];
      var remaining := playerData.Keys;
      while remaining != {}
        invariant Progress(order, playerId, playerData, remaining)
        invariant fs.Logged(PlayerWrites(playersData, order))
        decreases remaining
      {
        var name :| name in remaining;
        ghost var files0 := fs.files;
        var _ := TrySavePlayerData(name, playerId);
        ApplyOne(files0, Write(PlayerPath(playerId, name), playerData[name]));
        ApplyAppend(old(fs.files), PlayerWrites(playersData, order), Write(PlayerPath(playerId, name), playerData[name]));
        PlayerWritesSnoc(playersData, order, playerId, name);
        ProgressStep(order, playerId, playerData, remaining, name);
        order := order + [(playerId, name)];
        remaining := remaining - {name};
      }
      ProgressDone(order, playersData, playerId);
      ok := true;
    }

    /** Saves every entry loaded for one plugin, in the registry's (unspecified) order. */
    method TrySavePlugin(pluginName: string) returns (ok: bool, ghost order: seq<(string, string)>)
      modifies fs
      ensures ok == IsLoadedPlugin(pluginName)
      ensures ok ==> EnumeratesEntries(order, pluginsData, {pluginName})
      ensures !ok ==> order == []
      ensures fs.Logged(PluginWrites(pluginsData, order))
    {
      order := [];
      if !IsLoadedPlugin(pluginName) {
        ok := false;
        return;
      }
      var pluginData := pluginsData[pluginName];
      var remaining := pluginData.Keys;
      while remaining != {}
        invariant Progress(order, pluginName, pluginData, remaining)
        invariant fs.Logged(PluginWrites(pluginsData, order))
        decreases remaining
      {
        var name :| name in remaining;
        ghost var files0 := fs.files;
        var _ := TrySavePluginData(pluginName, name);
        ApplyOne(files0, Write(PluginPath(pluginName, name), pluginData[name]));
        ApplyAppend(old(fs.files), PluginWrites(pluginsData, order), Write(PluginPath(pluginName, name), pluginData[name]));
        PluginWritesSnoc(pluginsData, order, pluginName, name);
        ProgressStep(order, pluginName, pluginData, remaining, name);
        order := order + [(pluginName, name)];
        remaining := remaining - {name};
      }
      ProgressDone(order, pluginsData, pluginName);
      ok := true;
    }
    /** The first loop of TrySaveAllData: saves every player, one outer key at a time. */
    method SaveEveryPlayer() returns (ghost order: seq<(u64, string)>)
      modifies fs
      ensures EnumeratesEntries(order, playersData, playersData.Keys)
      ensures fs.Logged(PlayerWrites(playersData, order))
    {
      order := [];
      var players := playersData.Keys;
      while players != {}
        invariant OuterProgress(order, playersData, players)
        invariant fs.Logged(PlayerWrites(playersData, order))
        decreases players
      {
        var playerId :| playerId in players;
        ghost var log0, files0 := fs.log, fs.files;
        var _, sub := TrySavePlayer(playerId);
        LoggedTwice(old(fs.log), old(fs.files), log0, files0, fs.log, fs.files,
                    PlayerWrites(playersData, order), PlayerWrites(playersData, sub));
        PlayerWritesConcat(playersData, order, sub);
        OuterProgressStep(order, playersData, players, playerId, sub);
        order := order + sub;
        players := players - {playerId};
      }
      OuterProgressDone(order, playersData);
    }

    /** The second loop of TrySaveAllData: saves every plugin, one outer key at a time. */
    method SaveEveryPlugin() returns (ghost order: seq<(string, string)>)
      modifies fs
      ensures EnumeratesEntries(order, pluginsData, pluginsData.Keys)
      ensures fs.Logged(PluginWrites(pluginsData, order))
    {
      order := [];
      var plugins := pluginsData.Keys;
      while plugins != {}
        invariant OuterProgress(order, pluginsData, plugins)
        invariant fs.Logged(PluginWrites(pluginsData, order))
        decreases plugins
      {
        var pluginName :| pluginName in plugins;
        ghost var log0, files0 := fs.log, fs.files;
        var _, sub := TrySavePlugin(pluginName);
        LoggedTwice(old(fs.log), old(fs.files), log0, files0, fs.log, fs.files,
                    PluginWrites(pluginsData, order), PluginWrites(pluginsData, sub));
        PluginWritesConcat(pluginsData, order, sub);
        OuterProgressStep(order, pluginsData, plugins, pluginName, sub);
        order := order + sub;
        plugins := plugins - {pluginName};
      }
      OuterProgressDone(order, pluginsData);
    }

    /** Saves every entry of both registries; refused while unloading or when nothing is loaded. */
    method TrySaveAllData() returns (ok: bool, ghost playerOrder: seq<(u64, string)>, ghost pluginOrder: seq<(string, string)>)
      modifies fs
      ensures ok == (!isUnloading && !(|playersData| == 0 && |pluginsData| == 0))
      ensures ok ==> EnumeratesEntries(playerOrder, playersData, playersData.Keys)
      ensures ok ==> EnumeratesEntries(pluginOrder, pluginsData, pluginsData.Keys)
      ensures !ok ==> playerOrder == [] && pluginOrder == []
      ensures fs.Logged(PlayerWrites(playersData, playerOrder) + PluginWrites(pluginsData, pluginOrder))
      ensures ok ==> forall k, n :: IsLoaded(playersData, k, n) ==>
        PlayerPath(k, n) in fs.files && fs.files[PlayerPath(k, n)] == Some(playersData[k][n])
      ensures ok && (forall p :: p in pluginsData ==> '/' !in p) ==>
        forall p, n :: IsLoaded(pluginsData, p, n) ==>
          PluginPath(p, n) in fs.files && fs.files[PluginPath(p, n)] == Some(pluginsData[p][n])
    {
      playerOrder, pluginOrder := [], [];
      if isUnloading {
        ok := false;
        return;
      }
      if |playersData| == 0 && |pluginsData| == 0 {
        ok := false;
        return;
      }
      playerOrder := SaveEveryPlayer();
      ghost var log0, files0 := fs.log, fs.files;
      pluginOrder := SaveEveryPlugin();
      LoggedTwice(old(fs.log), old(fs.files), log0, files0, fs.log, fs.files,
                  PlayerWrites(playersData, playerOrder), PluginWrites(pluginsData, pluginOrder));
      SaveAllStoresEveryEntry(old(fs.files), playersData, pluginsData, playerOrder, pluginOrder);
      ok := true;
    }
    // Load

    /**
     * Loads a player's record for a plugin: refused while unloading or when the plugin
     * is absent or not loaded; a missing file is created from `defaultData`; a file that
     * reads as null fails; a stored record whose version differs from the plugin's is
     * archived under Backup/ and replaced by `defaultData` when `checkVersion` is set;
     * otherwise the stored record is inserted as it is.
     */
    method TryLoadPlayerData(pluginName: string, playerId: u64, pluginManager: map<string, Plugin>, defaultData: Record)
      returns (ok: bool)
      modifies this`playersData, fs
      ensures old(Valid()) ==> Valid()
      ensures var path := PlayerPath(playerId, pluginName);
        var step := LoadPlan(isUnloading, checkVersion, GetPlugin(pluginManager, pluginName), old(fs.files), path);
        && (step.Refuse? ==> !ok && playersData == old(playersData) && fs.Logged([]))
        && (step.CreateDefault? ==>
              (ok, playersData) == Set(old(playersData), playerId, pluginName, defaultData) &&
              (ok ==> TryGetPlayerData(pluginName, playerId) == Some(defaultData)) &&
              fs.Logged(BackupWrites(path, step.backup) + if ok then [Write(path, defaultData)] else []))
        && (step.Insert? ==>
              (ok, playersData) == Set(old(playersData), playerId, pluginName, step.stored) && fs.Logged([]))
    {
      if isUnloading {
        return false;
      }
      var plugin := GetPlugin(pluginManager, pluginName);
      if plugin.None? || !plugin.value.isLoaded {
        return false;
      }
      var path := PlayerPath(playerId, pluginName);
      if !fs.ExistsDatafile(path) {
        ok := TryCreatePlayerData(pluginName, playerId, Some(defaultData));
        return;
      }
      var data := fs.files[path];
      if data.None? {
        return false;
      }
      if checkVersion && data.value.version != plugin.value.version {
        ghost var log0, files0 := fs.log, fs.files;
        BackupData(path, data.value);
        ghost var log1, files1 := fs.log, fs.files;
        ok := TryCreatePlayerData(pluginName, playerId, Some(defaultData));
        LoggedTwice(log0, files0, log1, files1, fs.log, fs.files,
                    BackupWrites(path, data), if ok then [Write(path, defaultData)] else []);
        return;
      }
      ok := TrySetPlayerData(pluginName, playerId, data.value);
    }

    method TryLoadPluginData(pluginName: string, dataName: string, pluginManager: map<string, Plugin>, defaultData: Record)
      returns (ok: bool)
      modifies this`pluginsData, fs
      ensures old(Valid()) ==> Valid()
      ensures var path := PluginPath(pluginName, dataName);
        var step := LoadPlan(isUnloading, checkVersion, GetPlugin(pluginManager, pluginName), old(fs.files), path);
        && (step.Refuse? ==> !ok && pluginsData == old(pluginsData) && fs.Logged([]))
        && (step.CreateDefault? ==>
              (ok, pluginsData) == Set(old(pluginsData), pluginName, dataName, defaultData) &&
              (ok ==> TryGetPluginData(pluginName, dataName) == Some(defaultData)) &&
              fs.Logged(BackupWrites(path, step.backup) + if ok then [Write(path, defaultData)] else []))
        && (step.Insert? ==>
              (ok, pluginsData) == Set(old(pluginsData), pluginName, dataName, step.stored) && fs.Logged([]))
    {
      if isUnloading {
        return false;
      }
      var plugin := GetPlugin(pluginManager, pluginName);
      if plugin.None? || !plugin.value.isLoaded {
        return false;
      }
      var path := PluginPath(pluginName, dataName);
      if !fs.ExistsDatafile(path) {
        ok := TryCreatePluginData(pluginName, dataName, Some(defaultData));
        return;
      }
      var data := fs.files[path];
      if data.None? {
        return false;
      }
      if checkVersion && data.value.version != plugin.value.version {
        ghost var log0, files0 := fs.log, fs.files;
        BackupData(path, data.value);
        ghost var log1, files1 := fs.log, fs.files;
        ok := TryCreatePluginData(pluginName, dataName, Some(defaultData));
        LoggedTwice(log0, files0, log1, files1, fs.log, fs.files,
                    BackupWrites(path, data), if ok then [Write(path, defaultData)] else []);
        return;
      }
      ok := TrySetPluginData(pluginName, dataName, data.value);
    }

    // Unload

    /**
     * Saves one entry and removes it, pruning the player's key when it was the last entry.
     * The registry update is proved equal to `Registry.Remove`.
     */
    method TryUnloadPlayerData(pluginName: string, playerId: u64) returns (ok: bool)
      modifies this`playersData, fs
      ensures old(Valid()) ==> Valid()
      ensures ok == (!isUnloading && IsLoaded(old(playersData), playerId, pluginName))
      ensures ok ==> playersData == Remove(old(playersData), playerId, pluginName)
      ensures ok ==> fs.Logged([Write(PlayerPath(playerId, pluginName), old(playersData)[playerId][pluginName])])
      ensures !ok ==> playersData == old(playersData) && fs.Logged([])
    {
      if isUnloading || !IsLoadedPlayerData(pluginName, playerId) {
        return false;
      }
      var _ := TrySavePlayerData(pluginName, playerId);
      var playerData := playersData[playerId];
      if |playerData| == 1 {
        playersData := playersData - {playerId};
      } else {
        playersData := playersData[playerId := playerData - {pluginName}];
      }
      ok := true;
    }

    /** Saves every entry of one player, then removes the player's key. */
    method TryUnloadPlayer(playerId: u64) returns (ok: bool, ghost order: seq<(u64, string)>)
      modifies this`playersData, fs
      ensures old(Valid()) ==> Valid()
      ensures ok == (!isUnloading && playerId in old(playersData))
      ensures ok ==> EnumeratesEntries(order, old(playersData), {playerId})
      ensures ok ==> playersData == old(playersData) - {playerId}
      ensures !ok ==> order == [] && playersData == old(playersData)
      ensures fs.Logged(PlayerWrites(old(playersData), order))
    {
      order := [];
      if isUnloading || !IsLoadedPlayer(playerId) {
        ok := false;
        return;
      }
      var _, saved := TrySavePlayer(playerId);
      order := saved;
      playersData := playersData - {playerId};
      ok := true;
    }

    /**
     * Saves one entry and removes it, pruning the plugin's key when it was the last entry.
     * The registry update is proved equal to `Registry.Remove`.
     */
    method TryUnloadPluginData(pluginName: string, dataName: string) returns (ok: bool)
      modifies this`pluginsData, fs
      ensures old(Valid()) ==> Valid()
      ensures ok == (!isUnloading && IsLoaded(old(pluginsData), pluginName, dataName))
      ensures ok ==> pluginsData == Remove(old(pluginsData), pluginName, dataName)
      ensures ok ==> fs.Logged([Write(PluginPath(pluginName, dataName), old(pluginsData)[pluginName][dataName])])
      ensures !ok ==> pluginsData == old(pluginsData) && fs.Logged([])
    {
      if isUnloading || !IsLoadedPluginData(pluginName, dataName) {
        return false;
      }
      var _ := TrySavePluginData(pluginName, dataName);
      var pluginData := pluginsData[pluginName];
      if |pluginData| == 1 {
        pluginsData := pluginsData - {pluginName};
      } else {
        pluginsData := pluginsData[pluginName := pluginData - {dataName}];
      }
      ok := true;
    }

    /** Saves every entry of one plugin, then removes the plugin's key. */
    method TryUnloadPlugin(pluginName: string) returns (ok: bool, ghost order: seq<(string, string)>)
      modifies this`pluginsData, fs
      ensures old(Valid()) ==> Valid()
      ensures ok == (!isUnloading && pluginName in old(pluginsData))
      ensures ok ==> EnumeratesEntries(order, old(pluginsData), {pluginName})
      ensures ok ==> pluginsData == old(pluginsData) - {pluginName}
      ensures !ok ==> order == [] && pluginsData == old(pluginsData)
      ensures fs.Logged(PluginWrites(old(pluginsData), order))
    {
      order := [];
      if isUnloading || !IsLoadedPlugin(pluginName) {
        ok := false;
        return;
      }
      var _, saved := TrySavePlugin(pluginName);
      order := saved;
      pluginsData := pluginsData - {pluginName};
      ok := true;
    }

    // Backup

    /** Archives a stale record, unchanged, under Backup/ followed by its original path. */
    method BackupData(path: string, data: Record)
      modifies fs
      ensures fs.Logged([Write(BackupPath(path), data)])
    {
      fs.WriteObject(BackupPath(path), data);
    }
  }
}
