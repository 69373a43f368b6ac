# hotzenplotz Store, modelled in Dafny

hotzenplotz is a small client-side cache of named JSON collections served by a
backend. Its `Store` class:

- normalises the configured base URL so that it ends in `/` (and defaults it
  to `/`);
- on construction, when `persistLocally` is set, reloads every collection
  listed in the local-storage registry key `hotzenplotz` from its key
  `hotzenplotz_<name>`;
- answers `collection(name)` from memory when it can. Otherwise it fetches
  `<backendUrl><name>.json`, turns each record's `_id.$oid` into a flat `id`,
  caches the result, and with `persistLocally` writes the collection and then
  the registry back to local storage.

The model has four modules, one per concern:

| file | module | what it holds |
|---|---|---|
| `json.dfy` | `Json` | JavaScript values, and what `JSON.stringify` followed by `JSON.parse` does to them |
| `records.dfy` | `Records` | record normalisation: the function that specifies it and the loop that performs it |
| `persistence.dfy` | `Persistence` | the local-storage key layout, `setItem` and its log, write-through ordering, the cold-start load loop |
| `store.dfy` | `Hotzenplotz` | base-URL normalisation, the configuration object, the transport, the `Store` class |

The model follows the code's JavaScript semantics:

- The configuration is an object the caller owns. The constructor rewrites its
  `backendUrl` in place, and `collection` reads `backendUrl` and
  `persistLocally` from it on every call (`Hotzenplotz.Config`).
- A record without `_id`, or with a `null` `_id`, makes `item._id.$oid` throw
  a `TypeError`. So does a body that is not an array. Such a fetch fails
  (`Records.Failure`) after the request was made, and leaves the cache and
  storage unchanged.
- A record whose `_id` is present but has no `$oid` does not throw. Its item
  gets `id` set to `undefined` (`Json.Value.Undefined`), and `JSON.stringify`
  drops that `id` when the collection is persisted.
- Only `persistLocally === true` switches persistence on. A missing URL and
  the empty URL both become `/`.
- The base URL is checked only at its last character. A URL ending in `//`
  keeps both slashes, so the result ends in at least one `/`, not exactly one.
- The keys of `this.data` have an order, and `Object.keys` reports it when the
  registry is rewritten. `Store.keys` records that insertion order.
- The code does not check the HTTP status and has no load strategies, revision
  checks or eviction. None of these is modelled.

## Model

| member | source | states |
|---|---|---|
| `Hotzenplotz.NormalizeBaseUrl` | src/index.ts:34-41 | The result is never empty and ends in `/`. No URL or an empty URL gives `/`. Otherwise the given URL is kept as a prefix, at most one `/` is added, and a URL already ending in `/` is unchanged. |
| `Hotzenplotz.NormalizeBaseUrlIdempotent` | src/index.ts:34-41 | Normalising an already normalised base URL changes nothing. |
| `Hotzenplotz.RequestPath` | src/index.ts:78 | The request path is the URL text, then the collection name, then `.json`. Each part can be read back at its position. |
| `Hotzenplotz.RequestPathUnderNormalizedBase` | src/index.ts:34-41 | Under the base URL the constructor leaves, a path starts with the base, has a `/` just before the name, and gives back the name and the `.json` suffix. |
| `Hotzenplotz.Config.constructor` | src/index.ts:3-13 | The configuration object holds the optional `backendUrl` and `persistLocally` it is given. |
| `Hotzenplotz.Backend.Fetch` | src/index.ts:79-80 | A fetch logs the requested path and returns the backend's parsed body for that path. |
| `Hotzenplotz.HitAsWrittenMisfires` | src/index.ts:74-76 | As written, the hit test on a plain object treats `constructor` as cached in an empty store, although no such collection was ever loaded. |
| `Hotzenplotz.IsCachedAgreesOffPrototype` | src/index.ts:74-76 | The intended hit test (an own entry exists) agrees with the written one on every name that is not inherited from `Object.prototype`. On inherited names that are not cached, the written one misfires. |
| `Hotzenplotz.Store.constructor` | src/index.ts:31-64 | The constructor rewrites the caller's `backendUrl` to its normalised form and does not touch storage. With persistence off the cache starts empty. With it on, the cache holds the collections the registry lists whose entries are stored, in first-listed order, and every cached collection is stored. |
| `Hotzenplotz.Store.Collection` | src/index.ts:73-105 | A hit returns the cached items and changes nothing: no fetch, no storage write, cache unchanged. A miss requests exactly `backendUrl + name + ".json"`. A failed normalisation leaves cache and storage unchanged. A successful one replaces `data[name]` alone, appends `name` to the key order and returns the new items. With persistence on, it writes the items, then the registry holding exactly the cache's keys; otherwise storage is untouched. It keeps the invariant "every cached collection is stored", and after a persisted miss the registry lists only stored collections. |
| `Hotzenplotz.Store.Persist` | src/index.ts:92-101 | The write-through step makes the item write, then the registry write holding exactly the cache's keys. Afterwards the collection is stored and every earlier stored collection still is. When every other cached collection was stored, every cached one now is and the registry lists only stored collections. |
| `Json.Jsonify` | src/index.ts:95 | The JSON round trip yields a value without `undefined` anywhere and keeps lists as lists and objects as objects. It drops exactly the object properties that held `undefined`. |
| `Json.JsonifyKeepsJson` | src/index.ts:95 | A value JSON can denote comes back from the round trip unchanged. |
| `Records.Oid` | src/index.ts:84 | `_id.$oid` is the `$oid` property of an object `_id`, and `undefined` for any other `_id`. |
| `Records.NormalizeRecord` | src/index.ts:83-86 | A normalised item has no `_id`, has `id` equal to the record's `_id.$oid`, and has every other property of the record with its value unchanged. |
| `Records.FirstMalformed` | src/index.ts:83-86 | Gives the index of the first record on which `item._id.$oid` throws, or the length when none throws. Every record before it reads fine. |
| `Records.NormalizeBody` | src/index.ts:80-86 | Normalisation succeeds exactly when the body is an array whose records all have a readable `_id`. A non-array fails as such, an array that fails always fails on a record, and that failure names the first record that throws. On success the items keep the records' number and order, each with `id` from `_id.$oid`, no `_id`, and all other fields unchanged. |
| `Records.NormalizeItems` | src/index.ts:83-86 | The `forEach` loop over the records produces exactly what `NormalizeBody` specifies, stopping at the first record that throws. |
| `Records.SerializeItem` | src/index.ts:95 | A persisted item keeps exactly the properties not holding `undefined`, each JSON-clean. |
| `Records.SerializeItemKeepsJson` | src/index.ts:95 | Every property of an item whose value JSON can denote reads back from storage with that same value. |
| `Records.SerializeItems` | src/index.ts:95 | A persisted collection keeps its length and order, item by item. |
| `Records.NormalizedSurvivesPersisting` | src/index.ts:83-95 | When the body is JSON and every record carries `_id.$oid`, normalisation succeeds and the persisted form of the collection equals the in-memory one. |
| `Records.MissingOidIsNotPersisted` | src/index.ts:84-95 | A record with an `_id` but no `$oid` yields `id: undefined` in memory, and that `id` is absent from the persisted form. |
| `Records.MissingOidLosesOnlyId` | src/index.ts:83-95 | For a JSON body, the persisted form of an item whose record has no `$oid` is the in-memory item minus its `id`: every other property survives unchanged. |
| `Persistence.CollectionKey` | src/index.ts:54 | A collection key is `hotzenplotz_` followed by the collection name, and the name can be read back from it. |
| `Persistence.CollectionKeysDistinct` | src/index.ts:46-54 | No collection key is the registry key, and two names share a collection key only if they are equal. |
| `Persistence.LocalStorage.constructor` | src/index.ts:46 | Local storage starts with the given entries and an empty write log. |
| `Persistence.LocalStorage.SetItem` | src/index.ts:93-101 | `setItem` stores the value under the key, changes no other key, and appends the call to the write log. |
| `Persistence.WriteThrough` | src/index.ts:92-101 | A persisted miss makes two writes: first the serialised items under the collection key, then the name list under the registry key. |
| `Persistence.WriteThroughStores` | src/index.ts:92-101 | After the two writes, the collection is stored, the registry holds the given names, and every collection that was stored before is still stored. |
| `Persistence.WriteThroughKeepsRegistryHonest` | src/index.ts:92-101 | Writing the items before the registry means that, after either write, the registry lists only stored collections. This holds whenever it held before and every other listed name was stored. |
| `Persistence.RegistryFirstWouldAdvertiseUnstored` | src/index.ts:92-101 | The opposite order is unsafe: writing the registry first lists a collection that is not stored yet. |
| `Persistence.Registered` | src/index.ts:46-51 | The registry's name list is used when present. When the registry entry is absent, the load sees no names. |
| `Persistence.LoadedFrom` | src/index.ts:52-62 | The loaded cache holds exactly the listed names whose entries are stored, each mapped to its stored items. Listed names with no stored entry are skipped. |
| `Persistence.LoadOrderListsLoaded` | src/index.ts:52-62 | The insertion order produced by the load lists each loaded name exactly once and nothing else. |
| `Persistence.LoadPersisted` | src/index.ts:44-63 | The loop over the registry builds exactly `LoadedFrom` over the registered names, with keys inserted in first-listed order and without duplicates. |
| `Persistence.ReloadAfterWriteThrough` | src/index.ts:44-101 | After a write-through, the next cold start loads the written collection in its persisted form. Every other name loads exactly when it is listed and was stored before, with its stored items. |

Predicates and helper functions that carry no contract of their own, and the
source lines they stand for:

- `Records.HasId`: whether `item._id.$oid` evaluates without throwing, src/index.ts:84.
- `Hotzenplotz.HitAsWritten`: the hit test as written, src/index.ts:74. `Hotzenplotz.IsCached` is the intended test, and `Store.Collection` uses it (see Findings).
- `Hotzenplotz.Persists`: the truthiness tests of `persistLocally`, src/index.ts:44 and src/index.ts:92.
- `Persistence.LoadOrder`: the key insertion order that the assignment at src/index.ts:58 produces and `Object.keys` reports at src/index.ts:100.
- `Hotzenplotz.UrlText`: the rendering of an unset URL as `undefined` in the concatenation at src/index.ts:78.

## Findings

| source | as written | input that shows it | evidently intended | confidence | as-written member | corrected member |
|---|---|---|---|---|---|---|
| src/index.ts:74-76 | `if (this.data[collectionName])` on the plain object `{}` also finds members inherited from `Object.prototype`. | `collection("constructor")` on an empty store returns the `Object` function, with no fetch. | A hit only when the collection has its own cached entry. | high; not executed | `Hotzenplotz.HitAsWrittenMisfires` | `Hotzenplotz.IsCachedAgreesOffPrototype` |

`Hotzenplotz.Store.Collection` uses the corrected test, `Hotzenplotz.IsCached`.

## Left out

- Transport: `window.fetch`, the `whatwg-fetch` polyfill and `response.json()` are a `Backend` object. It answers each path with a fixed parsed body. HTTP status, network failures and bodies that are not JSON are not modelled; the code has no status check either.
- Parsing and serialising: `JSON.parse` and `JSON.stringify` are not modelled as text. Storage holds parsed values (`Persistence.Stored`), and the round trip is `Json.Jsonify`. Stored text that does not parse, the empty string, and entries of an unexpected shape are not modelled. In the code, a registry that does not parse makes the constructor throw, and a collection entry of another shape would be loaded as is. In the model, a registry entry that is not a name list reads as absent, and a collection entry that is not an item list is skipped.
- Numbers are integers: floating-point values and their JSON rendering are not modelled.
- Property order within an item is not modelled (items are maps). The order of `Object.keys` is modelled as insertion order. JavaScript lists integer-like keys first; that is not modelled.
- `Store.keys` is not part of the source. It stands for the key order that the JavaScript object `this.data` keeps.
- Cached collections are values, not references. In JavaScript, `collection` returns the cached array itself, so a caller mutating it would change the cache. The per-item mutation in the `forEach` loop is modelled as building new items; the fetched array is local until cached, so the difference is not observable.
- Inherited property names used as collection names on load or store are not modelled. For example, `this.data["__proto__"] = …` would replace the prototype. Only the hit test's misfire is recorded, under Findings.
- `localStorage.setItem` throwing (quota exceeded) is not modelled. Storage writes always succeed.
- `async`/`await` and overlapping `collection` calls are not modelled: each call is atomic. In the code, `persistLocally` is read after the fetch completes; in the model it is read in the same step.
- The `window.location.href` fallback mentioned in the configuration's doc comment is not in the code. The model follows the code and uses `/`.
- The conditional logger (`src/utils/logger.ts`) only produces console output and is not part of this model.
- Load strategies, revision reconciliation and eviction do not exist in this version of the code and are not modelled.
