/**
 * Storage paths built by the data manager: PlayersData/<id>/<plugin>,
 * PluginsData/<plugin>/<name> and Backup/<path>, with the player id written in decimal.
 */
module Paths {
  import opened Records

  const BackupDataFolder: string := "Backup/"
  const PlayersDataFolder: string := "PlayersData/"
  const PluginsDataFolder: string := "PluginsData/"

  predicate IsDigit(c: char) {
    '0' <= c <= '9'
  }

  predicate AllDigits(s: string) {
    forall i :: 0 <= i < |s| ==> IsDigit(s[i])
  }

  function DigitChar(d: nat): (c: char)
    requires d < 10
    ensures IsDigit(c) && c as int - '0' as int == d
  {
    ('0' as int + d) as char
  }

  function DigitValue(c: char): nat
    requires IsDigit(c)
  {
    c as int - '0' as int
  }

  /** How .NET formats an unsigned integer: decimal digits, no sign, no leading zero. */
  function DecimalString(n: nat): (s: string)
    ensures |s| >= 1 && AllDigits(s)
    ensures s[0] == '0' <==> n == 0
    decreases n
  {
    if n < 10 then [DigitChar(n)]
    else DecimalString(n / 10) + [DigitChar(n % 10)]
  }

  /** Reads back a string of decimal digits; the inverse of DecimalString. */
  function ParseDecimal(s: string): nat
    requires AllDigits(s)
    decreases |s|
  {
    if s == [] then 0
    else ParseDecimal(s[..|s| - 1]) * 10 + DigitValue(s[|s| - 1])
  }

  lemma {:induction false} DecimalRoundTrip(n: nat)
    ensures ParseDecimal(DecimalString(n)) == n
    decreases n
  {
    var s := DecimalString(n);
    if n >= 10 {
      assert s[..|s| - 1] == DecimalString(n / 10);
      DecimalRoundTrip(n / 10);
    }
  }

  /** PlayersData/<id>/<plugin>: inside the players folder, ending in "/" and the plugin name. */
  function PlayerPath(playerId: u64, pluginName: string): (p: string)
    ensures |p| > |PlayersDataFolder| + |pluginName| && p[..|PlayersDataFolder|] == PlayersDataFolder
    ensures p[|p| - |pluginName| - 1..] == "/" + pluginName
  {
    PlayersDataFolder + DecimalString(playerId as nat) + "/" + pluginName
  }

  /** PluginsData/<plugin>/<name>: inside the plugins folder, ending in "/" and the data name. */
  function PluginPath(pluginName: string, dataName: string): (p: string)
    ensures |p| > |PluginsDataFolder| + |dataName| && p[..|PluginsDataFolder|] == PluginsDataFolder
    ensures p[|p| - |dataName| - 1..] == "/" + dataName
  {
    PluginsDataFolder + pluginName + "/" + dataName
  }

  /** Backup/<path>: inside the backup folder, keeping the original path whole. */
  function BackupPath(path: string): (p: string)
    ensures |p| == |BackupDataFolder| + |path|
    ensures p[..|BackupDataFolder|] == BackupDataFolder && p[|BackupDataFolder|..] == path
  {
    BackupDataFolder + path
  }

  /** A slash-free segment followed by a slash can be split off again unambiguously. */
  lemma SplitAtFirstSlash(d1: string, r1: string, d2: string, r2: string)
    requires '/' !in d1 && '/' !in d2
    requires d1 + "/" + r1 == d2 + "/" + r2
    ensures d1 == d2 && r1 == r2
  {
    var s1, s2 := d1 + "/" + r1, d2 + "/" + r2;
    assert s1[|d1|] == '/' && s2[|d2|] == '/';
    assert forall k :: 0 <= k < |d1| ==> s1[k] == d1[k];
    assert forall k :: 0 <= k < |d2| ==> s2[k] == d2[k];
    assert |d1| == |d2|;
    assert d1 == s1[..|d1|];
    assert d2 == s2[..|d2|];
    assert r1 == s1[|d1| + 1..];
    assert r2 == s2[|d2| + 1..];
  }

  /** Distinct (player, plugin) pairs are stored under distinct files. */
  lemma PlayerPathInjective(id1: u64, plugin1: string, id2: u64, plugin2: string)
    requires PlayerPath(id1, plugin1) == PlayerPath(id2, plugin2)
    ensures id1 == id2 && plugin1 == plugin2
  {
    var d1, d2 := DecimalString(id1 as nat), DecimalString(id2 as nat);
    var n := |PlayersDataFolder|;
    assert PlayerPath(id1, plugin1)[n..] == d1 + "/" + plugin1;
    assert PlayerPath(id2, plugin2)[n..] == d2 + "/" + plugin2;
    assert forall k :: 0 <= k < |d1| ==> d1[k] != '/';
    assert forall k :: 0 <= k < |d2| ==> d2[k] != '/';
    SplitAtFirstSlash(d1, plugin1, d2, plugin2);
    DecimalRoundTrip(id1 as nat);
    DecimalRoundTrip(id2 as nat);
  }

  /** Within one plugin, distinct data names are stored under distinct files. */
  lemma PluginPathInjective(pluginName: string, name1: string, name2: string)
    requires PluginPath(pluginName, name1) == PluginPath(pluginName, name2)
    ensures name1 == name2
  {
    var n := |PluginsDataFolder + pluginName + "/"|;
    assert PluginPath(pluginName, name1)[n..] == name1;
    assert PluginPath(pluginName, name2)[n..] == name2;
  }

  /**
   * Across plugins, distinct (plugin, data name) pairs are stored under distinct files as
   * long as plugin names hold no slash. Nothing in the data manager checks that.
   */
  lemma PluginPathsDistinct(plugin1: string, name1: string, plugin2: string, name2: string)
    requires '/' !in plugin1 && '/' !in plugin2
    ensures (plugin1, name1) != (plugin2, name2) ==> PluginPath(plugin1, name1) != PluginPath(plugin2, name2)
  {
    if PluginPath(plugin1, name1) == PluginPath(plugin2, name2) {
      var n := |PluginsDataFolder|;
      assert PluginPath(plugin1, name1)[n..] == plugin1 + "/" + name1;
      assert PluginPath(plugin2, name2)[n..] == plugin2 + "/" + name2;
      SplitAtFirstSlash(plugin1, name1, plugin2, name2);
    }
  }

  /** Without that restriction two plugin entries can share a file. */
  lemma PluginPathsCollide()
    ensures PluginPath("a/b", "c") == PluginPath("a", "b/c")
  {
  }

  /** Distinct (player, plugin) pairs never share a file. */
  lemma PlayerPathsDistinct(id1: u64, plugin1: string, id2: u64, plugin2: string)
    ensures (id1, plugin1) != (id2, plugin2) ==> PlayerPath(id1, plugin1) != PlayerPath(id2, plugin2)
  {
    if PlayerPath(id1, plugin1) == PlayerPath(id2, plugin2) {
      PlayerPathInjective(id1, plugin1, id2, plugin2);
    }
  }

  /** Player files, plugin files and backups live in three disjoint folders. */
  lemma FoldersDisjoint(playerId: u64, pluginName: string, owner: string, dataName: string, path: string)
    ensures PlayerPath(playerId, pluginName) != PluginPath(owner, dataName)
    ensures BackupPath(path) != PlayerPath(playerId, pluginName)
    ensures BackupPath(path) != PluginPath(owner, dataName)
  {
    assert PlayerPath(playerId, pluginName)[2] == 'a';
    assert PluginPath(owner, dataName)[2] == 'u';
    assert BackupPath(path)[0] == 'B';
    assert PlayerPath(playerId, pluginName)[0] == 'P';
    assert PluginPath(owner, dataName)[0] == 'P';
  }
}
