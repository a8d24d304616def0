/**
 * The two in-memory registries of the data manager, as values: an outer key (a player id
 * or a plugin name) maps to an inner table from an inner key (the plugin name or the data
 * name) to the loaded record.
 */
module Registry {
  import opened Wrappers
  import opened Records

  type Table<K(==)> = map<K, map<string, Record>>

  predicate IsLoadedKey<K(==)>(m: Table<K>, k: K) {
    k in m
  }

  predicate IsLoaded<K(==)>(m: Table<K>, k: K, name: string) {
    k in m && name in m[k]
  }

  /** Every (outer key, inner key) pair listed in `entries` is loaded in `m`. */
  predicate AllLoaded<K(==)>(m: Table<K>, entries: seq<(K, string)>) {
    forall i :: 0 <= i < |entries| ==> entries[i].0 in m && entries[i].1 in m[entries[i].0]
  }

  /** No outer key is left holding an empty inner table. */
  ghost predicate NoEmptyInner<K>(m: Table<K>) {
    forall k :: k in m ==> |m[k]| > 0
  }

  /** The record loaded under (k, name), or None when the key or the entry is not loaded. */
  function Get<K(==)>(m: Table<K>, k: K, name: string): Option<Record> {
    if IsLoaded(m, k, name) then Some(m[k][name]) else None
  }

  lemma SingletonKeys(inner: map<string, Record>, name: string)
    requires |inner| == 1 && name in inner
    ensures inner.Keys == {name}
  {
    var rest := inner.Keys - {name};
    assert |inner.Keys| == |rest| + 1;
  }

  /**
   * Insert-if-absent. Returns false and the table unchanged when the entry is already
   * loaded; otherwise adds exactly that entry, creating the outer key with a one-entry
   * table when it is absent.
   */
  function Set<K(==,!new)>(m: Table<K>, k: K, name: string, data: Record): (r: (bool, Table<K>))
    ensures IsLoaded(m, k, name) ==> r == (false, m)
    ensures !IsLoaded(m, k, name) ==> r.0 && Get(r.1, k, name) == Some(data)
    ensures !IsLoaded(m, k, name) ==> r.1.Keys == m.Keys + {k}
    ensures k !in m ==> r.1[k] == map[name := data]
    ensures forall k', n' :: k' != k || n' != name ==> Get(r.1, k', n') == Get(m, k', n')
    ensures NoEmptyInner(m) ==> NoEmptyInner(r.1)
  {
    if k !in m then (true, m[k := map[name := data]])
    else if name in m[k] then (false, m)
    else (true, m[k := m[k][name := data]])
  }

  /**
   * Removes one loaded entry; when it was the only entry under its outer key, the outer
   * key goes too.
   */
  function Remove<K(==,!new)>(m: Table<K>, k: K, name: string): (r: Table<K>)
    requires IsLoaded(m, k, name)
    ensures Get(r, k, name) == None
    ensures forall k', n' :: k' != k || n' != name ==> Get(r, k', n') == Get(m, k', n')
    ensures r.Keys == if |m[k]| == 1 then m.Keys - {k} else m.Keys
    ensures NoEmptyInner(m) ==> NoEmptyInner(r)
  {
    if |m[k]| == 1 then
      SingletonKeys(m[k], name);
      m - {k}
    else
      assert |m[k] - {name}| == |m[k]| - 1;
      m[k := m[k] - {name}]
  }

  /** Unloading an entry that was just inserted gives back the registry as it was. */
  lemma RemoveUndoesSet<K(!new)>(m: Table<K>, k: K, name: string, data: Record)
    requires NoEmptyInner(m) && !IsLoaded(m, k, name)
    ensures IsLoaded(Set(m, k, name, data).1, k, name)
    ensures Remove(Set(m, k, name, data).1, k, name) == m
  {
    var m' := Set(m, k, name, data).1;
    if k !in m {
      assert m' - {k} == m;
    } else {
      assert m'[k] == m[k][name := data];
      assert |m'[k]| == |m[k]| + 1;
      assert m'[k] - {name} == m[k];
      assert m'[k := m'[k] - {name}] == m;
    }
  }
}
