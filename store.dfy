/** The `Store`: a read-through cache of named backend collections, with
    optional write-through to local storage. */
module Hotzenplotz {
  import opened Json
  import opened Records
  import opened Persistence

  datatype Option<T> = None | Some(value: T)

  /** The base URL the constructor settles on: `"/"` when none (or an empty
      one) is given, otherwise the given URL with a `/` appended unless it
      already ends in one. */
  function NormalizeBaseUrl(url: Option<string>): (r: string)
    ensures |r| > 0 && r[|r| - 1] == '/'
    ensures url.None? || url == Some("") ==> r == "/"
    ensures url.Some? && url.value != "" ==>
              |url.value| <= |r| <= |url.value| + 1 && r[..|url.value|] == url.value
    ensures url.Some? && url.value != "" && url.value[|url.value| - 1] == '/' ==> r == url.value
  {
    if url.None? || url.value == "" then "/"
    else if url.value[|url.value| - 1] != '/' then url.value + "/"
    else url.value
  }

  /** Normalising a normalised URL changes nothing. */
  lemma NormalizeBaseUrlIdempotent(url: Option<string>)
    ensures NormalizeBaseUrl(Some(NormalizeBaseUrl(url))) == NormalizeBaseUrl(url)
  {
  }

  /** A URL as JavaScript concatenation renders it: `undefined` when unset. */
  function UrlText(url: Option<string>): string {
    match url
    case None => "undefined"
    case Some(s) => s
  }

  /** The path `collection` requests for `name`. */
  function RequestPath(url: Option<string>, name: string): (path: string)
    ensures |path| == |UrlText(url)| + |name| + 5
    ensures path[..|UrlText(url)|] == UrlText(url)
    ensures path[|UrlText(url)|..|path| - 5] == name && path[|path| - 5..] == ".json"
  {
    UrlText(url) + name + ".json"
  }

  /** With the base URL as the constructor leaves it, a request path is the
      base, then the collection name, then `.json`: the name is recovered
      from the path and is separated from the base by a `/`. */
  lemma RequestPathUnderNormalizedBase(url: Option<string>, name: string)
    ensures var base := NormalizeBaseUrl(url);
            var path := RequestPath(Some(base), name);
            && path[..|base|] == base
            && path[|base| - 1] == '/'
            && path[|base|..|path| - 5] == name
            && path[|path| - 5..] == ".json"
  {
  }

  /** `if (this.config.persistLocally)`: only `true` switches persistence on. */
  predicate Persists(persistLocally: Option<bool>) {
    persistLocally == Some(true)
  }

  /** The configuration object the caller passes in. The store keeps a
      reference to it and rewrites its `backendUrl` in place. */
  class Config {
    var backendUrl: Option<string>
    var persistLocally: Option<bool>

    constructor (backendUrl: Option<string>, persistLocally: Option<bool>)
      ensures this.backendUrl == backendUrl && this.persistLocally == persistLocally
    {
      this.backendUrl := backendUrl;
      this.persistLocally := persistLocally;
    }
  }

  /** `window.fetch` followed by `response.json()`: the backend answers each
      path with a fixed body. The paths requested are logged. */
  class Backend {
    const respond: string -> Value
    ghost var requests: seq<string>

    constructor (respond: string -> Value)
      ensures this.respond == respond && requests == []
    {
      this.respond := respond;
      requests := [];
    }

    method Fetch(path: string) returns (body: Value)
      modifies this
      ensures requests == old(requests) + [path]
      ensures body == respond(path)
    {
      requests := requests + [path];
      body := respond(path);
    }
  }

  /** Members every plain JavaScript object inherits from `Object.prototype`. */
  const InheritedMembers: set<string> := {
    "constructor", "hasOwnProperty", "isPrototypeOf", "propertyIsEnumerable",
    "toLocaleString", "toString", "valueOf", "__proto__",
    "__defineGetter__", "__defineSetter__", "__lookupGetter__", "__lookupSetter__"
  }

  /** The hit test as written, `if (this.data[collectionName])` on a plain
      object: an own entry is found (every cached value is an array, which is
      truthy), and so is every inherited member. */
  predicate HitAsWritten(data: map<string, seq<Fields>>, name: string) {
    name in data || name in InheritedMembers
  }

  /** The hit test as intended: the collection has an own cached entry. */
  predicate IsCached(data: map<string, seq<Fields>>, name: string) {
    name in data
  }

  /** On an empty cache, a collection named `constructor` counts as a hit as
      written, so it is never fetched and `Object` itself is returned. */
  lemma HitAsWrittenMisfires()
    ensures HitAsWritten(map[], "constructor") && !IsCached(map[], "constructor")
  {
  }

  /** The intended hit test agrees with the written one exactly on the names
      that are not inherited members. */
  lemma IsCachedAgreesOffPrototype(data: map<string, seq<Fields>>, name: string)
    ensures name !in InheritedMembers ==> (IsCached(data, name) <==> HitAsWritten(data, name))
    ensures name in InheritedMembers && name !in data ==> HitAsWritten(data, name) && !IsCached(data, name)
  {
  }

  class Store {
    const config: Config
    const storage: LocalStorage
    /** `this.data`: collection name to its items. */
    var data: map<string, seq<Fields>>
    /** The insertion order of `data`'s keys, which `Object.keys` reports. */
    var keys: seq<string>

    ghost predicate Valid()
      reads this
    {
      NoDuplicates(keys) && forall n :: n in keys <==> n in data
    }

    /** Every cached collection has its items in storage. */
    ghost predicate Mirrored()
      reads this, storage
    {
      forall n :: n in data ==> Loadable(storage.entries, n)
    }

    constructor (config: Config, storage: LocalStorage)
      modifies config
      ensures this.config == config && this.storage == storage
      ensures config.backendUrl == Some(NormalizeBaseUrl(old(config.backendUrl)))
      ensures config.persistLocally == old(config.persistLocally)
      ensures unchanged(storage)
      ensures Valid()
      ensures !Persists(config.persistLocally) ==> data == map[] && keys == []
      ensures Persists(config.persistLocally) ==>
                && data == LoadedFrom(storage.entries, Registered(storage.entries))
                && keys == LoadOrder(storage.entries, Registered(storage.entries))
                && Mirrored()
    {
      this.config := config;
      this.storage := storage;
      data := map[];
      keys := [];
      new;
      if config.backendUrl.None? || config.backendUrl.value == "" {
        config.backendUrl := Some("/");
      } else if config.backendUrl.value[|config.backendUrl.value| - 1] != '/' {
        config.backendUrl := Some(config.backendUrl.value + "/");
      }
      if Persists(config.persistLocally) {
        data, keys := LoadPersisted(storage.entries);
      }
    }

    /** `collection(name)`: serve a cached collection, or fetch, normalise,
        cache and (when persistence is on) write it through. */
    method Collection(name: string, net: Backend) returns (r: Result<seq<Fields>>)
      requires Valid()
      modifies this, storage, net
      ensures Valid()
      ensures old(name in data) ==>
                && r == Ok(old(data)[name])
                && data == old(data) && keys == old(keys)
                && unchanged(storage) && unchanged(net)
      ensures old(name !in data) ==>
                net.requests == old(net.requests) + [RequestPath(config.backendUrl, name)]
      ensures old(name !in data) ==>
                var fetched := NormalizeBody(net.respond(RequestPath(config.backendUrl, name)));
                && r == fetched
                && (fetched.Err? ==> data == old(data) && keys == old(keys) && unchanged(storage))
                && (fetched.Ok? ==>
                      && data == old(data)[name := fetched.value]
                      && keys == old(keys) + [name])
                && (fetched.Ok? && Persists(config.persistLocally) ==>
                      && storage.writes == old(storage.writes) + WriteThrough(name, fetched.value, keys)
                      && storage.entries == Replay(old(storage.entries), WriteThrough(name, fetched.value, keys)))
                && (fetched.Ok? && !Persists(config.persistLocally) ==> unchanged(storage))
      ensures Persists(config.persistLocally) && old(Mirrored()) ==>
                && Mirrored()
                && (old(name !in data) && r.Ok? ==> AdvertisesOnlyStored(storage.entries))
    {
      if IsCached(data, name) {
        return Ok(data[name]);
      }
      var path := RequestPath(config.backendUrl, name);
      var body := net.Fetch(path);
      r := NormalizeItems(body);
      if r.Err? {
        return;
      }
      data := data[name := r.value];
      keys := keys + [name];
      if Persists(config.persistLocally) {
        Persist(name);
      }
      r := Ok(data[name]);
    }

    /** The write-through step of `collection`: the collection's items
        first, then the registry holding the keys of `data`. */
    method Persist(name: string)
      requires Valid() && name in data
      modifies storage
      ensures storage.writes == old(storage.writes) + WriteThrough(name, data[name], keys)
      ensures storage.entries == Replay(old(storage.entries), WriteThrough(name, data[name], keys))
      ensures Registered(storage.entries) == keys && Loadable(storage.entries, name)
      ensures forall n :: Loadable(old(storage.entries), n) ==> Loadable(storage.entries, n)
      ensures old(forall n :: n in data && n != name ==> Loadable(storage.entries, n)) ==>
                Mirrored() && AdvertisesOnlyStored(storage.entries)
    {
      ghost var before := storage.entries;
      storage.SetItem(CollectionKey(name), Items(SerializeItems(data[name])));
      storage.SetItem(RegistryKey, Names(keys));
      WriteThroughStores(before, name, data[name], keys);
    }
  }
}
