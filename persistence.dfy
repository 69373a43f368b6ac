/** The layout the store keeps in the browser's local storage: a registry
    key listing the persisted collection names, and one key per collection
    holding its items. */
module Persistence {
  import opened Json
  import opened Records

  /** The prefix shared by every key the store writes. */
  const Prefix: string := "hotzenplotz"

  /** The registry key: the list of persisted collection names. */
  const RegistryKey: string := Prefix

  /** The key under which collection `name` is persisted. */
  function CollectionKey(name: string): (key: string)
    ensures |key| == |Prefix| + 1 + |name|
    ensures key[..|Prefix| + 1] == Prefix + "_" && key[|Prefix| + 1..] == name
  {
    Prefix + "_" + name
  }

  /** No collection key is the registry key, and distinct names get distinct
      keys, so the layout never lets two entries share a key. */
  lemma CollectionKeysDistinct(a: string, b: string)
    ensures CollectionKey(a) != RegistryKey
    ensures CollectionKey(a) == CollectionKey(b) <==> a == b
  {
  }

  /** A stored entry, as `JSON.parse` reads it back: either the registry's
      list of names or a collection's items. */
  datatype Stored = Names(names: seq<string>) | Items(items: seq<Fields>)

  /** One `localStorage.setItem` call. */
  datatype Write = Put(key: string, value: Stored)

  /** The storage contents after a sequence of `setItem` calls. */
  function Replay(entries: map<string, Stored>, writes: seq<Write>): (r: map<string, Stored>)
    ensures forall w :: w in writes ==> w.key in r
    ensures forall k :: k in entries ==> k in r
    decreases writes
  {
    if writes == [] then entries
    else Replay(entries[writes[0].key := writes[0].value], writes[1..])
  }

  /** `window.localStorage`: string keys to stored entries, with the log of
      the writes made to it. */
  class LocalStorage {
    var entries: map<string, Stored>
    ghost var writes: seq<Write>

    constructor (entries: map<string, Stored>)
      ensures this.entries == entries && writes == []
    {
      this.entries := entries;
      writes := [];
    }

    method SetItem(key: string, value: Stored)
      modifies this
      ensures entries == old(entries)[key := value]
      ensures writes == old(writes) + [Put(key, value)]
    {
      entries := entries[key := value];
      writes := writes + [Put(key, value)];
    }
  }

  /** The two writes a fetched collection causes when persistence is on:
      first its items, then the registry listing `names`. */
  function WriteThrough(name: string, items: seq<Fields>, names: seq<string>): (ws: seq<Write>)
    ensures |ws| == 2
    ensures ws[0] == Put(CollectionKey(name), Items(SerializeItems(items)))
    ensures ws[1] == Put(RegistryKey, Names(names))
  {
    [Put(CollectionKey(name), Items(SerializeItems(items))), Put(RegistryKey, Names(names))]
  }

  /** What the two writes leave behind: the items under the collection's
      key, the names under the registry key, and every collection that was
      loadable before still loadable. */
  lemma WriteThroughStores(entries: map<string, Stored>, name: string, items: seq<Fields>, names: seq<string>)
    ensures var after := Replay(entries, WriteThrough(name, items, names));
            && after == entries[CollectionKey(name) := Items(SerializeItems(items))][RegistryKey := Names(names)]
            && Loadable(after, name)
            && Registered(after) == names
            && forall n :: Loadable(entries, n) ==> Loadable(after, n)
  {
    var ws := WriteThrough(name, items, names);
    var e1 := entries[CollectionKey(name) := ws[0].value];
    assert ws[1..][1..] == [];
    assert Replay(entries, ws) == Replay(e1, ws[1..]) == Replay(e1[RegistryKey := ws[1].value], []);
    forall n ensures CollectionKey(n) != RegistryKey {
      CollectionKeysDistinct(n, name);
    }
  }

  /** The items stored for `name` are present and readable as a collection. */
  predicate Loadable(entries: map<string, Stored>, name: string) {
    CollectionKey(name) in entries && entries[CollectionKey(name)].Items?
  }

  /** The registry never names a collection whose items are not stored. */
  predicate AdvertisesOnlyStored(entries: map<string, Stored>) {
    RegistryKey in entries && entries[RegistryKey].Names? ==>
      forall n :: n in entries[RegistryKey].names ==> Loadable(entries, n)
  }

  /** Writing the items before the registry keeps the storage consistent
      after each single write, so no interruption between the two writes can
      leave the registry advertising a collection that is not stored. */
  lemma {:induction false} WriteThroughKeepsRegistryHonest(
    entries: map<string, Stored>, name: string, items: seq<Fields>, names: seq<string>, k: nat)
    requires AdvertisesOnlyStored(entries)
    requires forall n :: n in names && n != name ==> Loadable(entries, n)
    requires k <= 2
    ensures AdvertisesOnlyStored(Replay(entries, WriteThrough(name, items, names)[..k]))
  {
    var ws := WriteThrough(name, items, names);
    var e1 := entries[CollectionKey(name) := ws[0].value];
    CollectionKeysDistinct(name, name);
    assert Loadable(e1, name);
    forall n | n != name && Loadable(entries, n) ensures Loadable(e1, n) {
      CollectionKeysDistinct(n, name);
    }
    if k == 0 {
      assert ws[..0] == [];
    } else if k == 1 {
      assert Replay(entries, ws[..1]) == Replay(e1, []);
    } else {
      assert ws[..2] == ws;
      var e2 := e1[RegistryKey := ws[1].value];
      assert ws[1..][1..] == [];
      assert Replay(entries, ws) == Replay(e1, ws[1..]) == Replay(e2, []);
      forall n | n in names ensures Loadable(e2, n) {
        CollectionKeysDistinct(n, name);
      }
    }
  }

  /** The opposite order would not be safe: writing the registry first
      advertises a collection that is not stored yet. */
  lemma RegistryFirstWouldAdvertiseUnstored(name: string, items: seq<Fields>)
    ensures var ws := WriteThrough(name, items, [name]);
            !AdvertisesOnlyStored(Replay(map[], [ws[1]]))
  {
    var ws := WriteThrough(name, items, [name]);
    var e := map[RegistryKey := ws[1].value];
    assert Replay(map[], [ws[1]]) == Replay(e, []);
    CollectionKeysDistinct(name, name);
    assert !Loadable(e, name);
  }

  predicate NoDuplicates(s: seq<string>) {
    forall i, j :: 0 <= i < j < |s| ==> s[i] != s[j]
  }

  /** The names listed by the registry entry, or none when the entry is
      absent (the `if (!value) return` of the cold-start load). */
  function Registered(entries: map<string, Stored>): (names: seq<string>)
    ensures RegistryKey in entries && entries[RegistryKey].Names? ==> names == entries[RegistryKey].names
    ensures !(RegistryKey in entries && entries[RegistryKey].Names?) ==> names == []
  {
    if RegistryKey in entries && entries[RegistryKey].Names? then entries[RegistryKey].names else []
  }

  /** The in-memory map a cold start builds from the listed `names`: each
      name whose items are stored maps to them, the others are skipped. */
  function LoadedFrom(entries: map<string, Stored>, names: seq<string>): (data: map<string, seq<Fields>>)
    ensures forall n :: n in data <==> n in names && Loadable(entries, n)
    ensures forall n :: n in data ==> Loadable(entries, n) && data[n] == entries[CollectionKey(n)].items
  {
    map n | n in names && Loadable(entries, n) :: entries[CollectionKey(n)].items
  }

  /** The order in which a cold start inserts the loaded names into the
      in-memory object: first occurrence in the registry. */
  function LoadOrder(entries: map<string, Stored>, names: seq<string>): seq<string>
  {
    if names == [] then []
    else
      var before := LoadOrder(entries, names[..|names| - 1]);
      var last := names[|names| - 1];
      if Loadable(entries, last) && last !in before then before + [last] else before
  }

  /** The load order lists each loaded name exactly once. */
  lemma {:induction false} LoadOrderListsLoaded(entries: map<string, Stored>, names: seq<string>)
    ensures NoDuplicates(LoadOrder(entries, names))
    ensures forall n :: n in LoadOrder(entries, names) <==> n in LoadedFrom(entries, names)
  {
    if names != [] {
      var init := names[..|names| - 1];
      LoadOrderListsLoaded(entries, init);
      assert names == init + [names[|names| - 1]];
    }
  }

  /** The cold-start load: walk the registry and copy every stored
      collection it lists into the in-memory map. */
  method LoadPersisted(entries: map<string, Stored>) returns (data: map<string, seq<Fields>>, keys: seq<string>)
    ensures data == LoadedFrom(entries, Registered(entries))
    ensures keys == LoadOrder(entries, Registered(entries))
    ensures NoDuplicates(keys) && forall n :: n in keys <==> n in data
  {
    var names := Registered(entries);
    data, keys := map[], [];
    var i := 0;
    while i < |names|
      invariant 0 <= i <= |names|
      invariant data == LoadedFrom(entries, names[..i])
      invariant keys == LoadOrder(entries, names[..i])
    {
      var name := names[i];
      assert names[..i + 1][..i] == names[..i];
      LoadOrderListsLoaded(entries, names[..i]);
      if CollectionKey(name) in entries && entries[CollectionKey(name)].Items? {
        if name !in data {
          keys := keys + [name];
        }
        data := data[name := entries[CollectionKey(name)].items];
      }
      assert names[..i + 1] == names[..i] + [name];
      i := i + 1;
    }
    assert names[..|names|] == names;
    LoadOrderListsLoaded(entries, names);
  }

  /** A collection written through is what the next cold start loads for
      it, and the other names the registry lists load as before. */
  lemma ReloadAfterWriteThrough(entries: map<string, Stored>, name: string, items: seq<Fields>, names: seq<string>)
    requires name in names
    ensures var after := Replay(entries, WriteThrough(name, items, names));
            var loaded := LoadedFrom(after, Registered(after));
            && name in loaded && loaded[name] == SerializeItems(items)
            && forall n :: n != name ==>
                 (n in loaded <==> n in names && Loadable(entries, n))
                 && (n in loaded ==> loaded[n] == entries[CollectionKey(n)].items)
  {
    var ws := WriteThrough(name, items, names);
    var e1 := entries[CollectionKey(name) := ws[0].value];
    var after := e1[RegistryKey := ws[1].value];
    assert ws[1..][1..] == [];
    assert Replay(entries, ws) == Replay(e1, ws[1..]) == Replay(after, []);
    forall n ensures CollectionKey(n) != RegistryKey && (n != name ==> CollectionKey(n) != CollectionKey(name)) {
      CollectionKeysDistinct(n, name);
    }
  }
}
