# cachely, modelled in Dafny

A model of the cachely library (`lib/cachely.rb`): a small object cache
that stores an opaque value under an id, with a list of tags and an
optional expiry, in a MongoDB collection. The model covers

- `Cachely::Backend::Core` (module `Core`, `core.dfy`): the option
  defaults, the merge of the caller's options over them in `initialize`,
  and `calc_expires`;
- `Cachely::Backend::Mongo` (module `Mongo`, `mongo.dfy`): its defaults and
  the six cache operations. The collection is the map field
  `Cache.collection` from `_id` to the stored document
  (`Entry(data, tags, expires)`), and every operation is a method that
  updates that map. Each method's new state is given by a function on
  maps (`Saved`, `AfterFetch`, `Removed`, `Untag`, `Sweep`, `Cleared`) whose own contract says
  which documents exist afterwards;
- the laws relating those operations (`MongoLaws`, `mongo_laws.dfy`) and
  what holds across any sequence of them (`MongoTraces`,
  `mongo_traces.dfy`);
- `Cachely.factory` (module `Cachely`, `cachely.dfy`): backend selection
  by class or by name through `String#capitalize!` and `const_get`;
- client code (`Scenarios`, `scenarios.dfy`) that replays typical usage scenarios against
  the engine's contracts.

The clock `Time.now` is the explicit integer argument `now` (whole
seconds), passed by name. The default of `save`'s ttl is written as
Dafny's default-value expression `Get(options, "lifetime")`, just as
Ruby's `ttl = @options[:lifetime]`. A ttl that is neither nil nor a
number makes `Time#+` raise in Ruby; the model answers
`Err(TtlNotNumeric(ttl))` and writes nothing.

Tag invalidation follows the code rather than the looser "tags intersect"
reading of invalidation by tag: `clean_tags(tags)` issues the MongoDB equality filter
`{tags: tags}`, which for an array value matches a document whose whole
tags array equals it. So the model removes exactly the documents whose tag
sequence equals the argument, not those whose tags merely intersect it.

## Model

| member | source | states |
|---|---|---|
| `Core.Merge` | lib/cachely.rb:11-13 | after `defaults.merge!(options)` every key of either hash is present; a key the caller gave has the caller's value, every other key keeps its default |
| `Core.CallerOverridesDefault` | lib/cachely.rb:11-13 | reading any option after construction gives the caller's value if the caller supplied the key and the default (or nil) otherwise |
| `Core.CoreDefaults` | lib/cachely.rb:15-21 | the Core defaults are exactly cache_id_prefix nil, lifetime 3600 and automatic_serialization true |
| `Core.CoreLifetimeDefault` | lib/cachely.rb:15-21 | without a caller `lifetime`, a Core backend's lifetime is 3600 |
| `Core.CalcExpires` | lib/cachely.rb:27-30 | no expiry exactly for a nil ttl, `now + ttl` for an integer ttl, and a TypeError for any other ttl |
| `Mongo.MongoDefaults` | lib/cachely.rb:34-42 | the Mongo defaults hold every Core default with its value, plus exactly host, port, dbname, collection and config |
| `Mongo.SaveEntry` | lib/cachely.rb:44-52 | the document written carries the given data and tags; it has no expiry exactly when the ttl is nil and expires at `now + ttl` for an integer ttl; a non-numeric ttl writes nothing |
| `Mongo.Saved` | lib/cachely.rb:47-52 | an upsert by id: the id is present with exactly the new document, every other id keeps its document, and a failed save leaves the collection as it was |
| `Mongo.Fetch` | lib/cachely.rb:55-63 | load answers data exactly when the id is present and not expired, and then the stored data |
| `Mongo.AfterFetch` | lib/cachely.rb:55-61 | load removes the id exactly when its document has an expiry strictly before now; no other document changes |
| `Mongo.Removed` | lib/cachely.rb:65-67 | remove deletes that id if present and keeps every other document unchanged |
| `Mongo.Cleared` | lib/cachely.rb:77-79 | after drop the collection holds no document |
| `Mongo.Sweep` | lib/cachely.rb:73-75 | clean_expired keeps exactly the documents without an expiry or with an expiry not before now, unchanged |
| `Mongo.Untag` | lib/cachely.rb:69-71 | clean_tags keeps exactly the documents whose tag sequence differs from the argument, unchanged |
| `Mongo.Cache.constructor` | lib/cachely.rb:11-13 | `@options` is the caller's options merged over the Mongo defaults; the collection holds what it held before |
| `Mongo.Cache.Save` | lib/cachely.rb:44-53 | the collection becomes `Saved(...)` of the old one, with the ttl defaulting to the `lifetime` option; answers the id, or the TypeError |
| `Mongo.Cache.Load` | lib/cachely.rb:55-63 | answers `Fetch` of the old collection and leaves `AfterFetch` of it |
| `Mongo.Cache.Remove` | lib/cachely.rb:65-67 | the collection becomes `Removed` of the old one; an absent id is no error |
| `Mongo.Cache.CleanTags` | lib/cachely.rb:69-71 | the collection becomes `Untag` of the old one |
| `Mongo.Cache.CleanExpired` | lib/cachely.rb:73-75 | the collection becomes `Sweep` of the old one at now |
| `Mongo.Cache.Clean` | lib/cachely.rb:77-79 | the collection becomes `Cleared()`, empty |
| `MongoLaws.SaveThenLoad` | lib/cachely.rb:44-63 | after a save, load returns the saved data exactly while now is not past the save time plus the ttl, and always for a nil ttl |
| `MongoLaws.LoadAfterExpiryEvicts` | lib/cachely.rb:55-61 | once the ttl has elapsed, load answers nil and the collection is the pre-save one without that id |
| `MongoLaws.DefaultLifetimeRoundTrip` | lib/cachely.rb:18 | a save that omits the ttl, on a backend without a lifetime option, stays loadable for exactly 3600 seconds |
| `MongoLaws.ReplacementDropsOldTags` | lib/cachely.rb:47-52 | after re-saving an id with new tags, cleaning the old tags keeps the new document intact |
| `MongoLaws.RemoveUndoesSave` | lib/cachely.rb:65-67 | removing an id after saving it gives the same collection as removing it without the save |
| `MongoLaws.RemoveThenLoad` | lib/cachely.rb:65-67 | after remove, that id loads as nil and every other id loads as before; removing an absent id changes nothing |
| `MongoLaws.LazyEvictionAgreesWithSweep` | lib/cachely.rb:55-75 | a load answers the same before and after clean_expired at the same time, and what a load evicts the sweep would also remove |
| `MongoLaws.LaterSweepSubsumesEarlier` | lib/cachely.rb:73-75 | a sweep at a later time removes everything a sweep at an earlier time does |
| `MongoLaws.NeverExpiringSurvivesSweep` | lib/cachely.rb:73-75 | a document without expiry survives every sweep |
| `MongoLaws.UntagCommutesWithSweep` | lib/cachely.rb:69-75 | clean_tags and clean_expired may be run in either order |
| `MongoLaws.UntagThenLoad` | lib/cachely.rb:69-71 | after clean_tags, ids with exactly those tags load as nil and all other ids load as before |
| `MongoTraces.StepKeepsUnwritten` | lib/cachely.rb:44-79 | an operation that does not save an id either keeps that id's document unchanged or deletes it |
| `MongoTraces.StoredEntryIsLastWrite` | lib/cachely.rb:44-79 | after any sequence of operations, each stored document is the one written by the last successful save of its id, or the original one if no save touched it |
| `MongoTraces.DeletionsOnlyShrink` | lib/cachely.rb:55-79 | a sequence of operations without saves never adds or changes a document |
| `MongoTraces.CleanForgetsEverything` | lib/cachely.rb:77-79 | after clean, and until the next save, the collection is empty and every load answers nil |
| `Cachely.Capitalized` | lib/cachely.rb:5 | `String#capitalize`: same length, first character upper-cased, every other character lower-cased |
| `Cachely.CapitalizeBang` | lib/cachely.rb:5 | `capitalize!` answers nil exactly when the string is already in capitalised form, and otherwise that form |
| `Cachely.CapitalizedIsFixedPoint` | lib/cachely.rb:5 | capitalising twice gives the same as capitalising once |
| `Cachely.CapitalizeBangTwiceIsNil` | lib/cachely.rb:5 | `capitalize!` on a result of `capitalize!` answers nil |
| `Cachely.Resolve` | lib/cachely.rb:5 | a Class is used as is; a name resolves to a backend exactly when its capitalised form is that backend's constant and the name is not already written that way; an already-capitalised name fails with const_get(nil); any other name whose capitalised form is no backend constant fails with BackendNotFound of that form |
| `Cachely.MongoByName` | lib/cachely.rb:5 | "mongo" and "MONGO" select Mongo while "Mongo" fails |
| `Cachely.Factory` | lib/cachely.rb:4-7 | the factory succeeds exactly when resolution does, builds that class, and each option is the caller's value where given and the class default otherwise |
| `Cachely.MongoLifetimeDefault` | lib/cachely.rb:4-7 | a Mongo backend built by name without a lifetime option has lifetime 3600 |
| `Cachely.ResolveIntended` | lib/cachely.rb:5 | with `capitalize`, a name resolves exactly when its capitalised form is the backend's constant, and otherwise fails with BackendNotFound of that form |
| `Cachely.IntendedResolution` | lib/cachely.rb:5 | with `capitalize`, each backend's own constant name resolves to it, and every name the written code accepts resolves the same way |

## Findings

| source | as written | input that shows it | evidently intended | confidence | as-written member | corrected member |
|---|---|---|---|---|---|---|
| lib/cachely.rb:5 | `backend.to_str.capitalize!` is passed to `const_get`; `capitalize!` answers nil when the string needs no change | `Cachely.factory("Mongo")`: `const_get(nil)` raises a TypeError, although "mongo" works | the non-mutating `capitalize`, so that the backend's own name selects it | high; not executed | `Cachely.Resolve` (shown by `Cachely.MongoByName`) | `Cachely.ResolveIntended` (proved by `Cachely.IntendedResolution`) |

`Cachely.Factory` keeps the written behaviour; `Cachely.ResolveIntended`
is the corrected resolution beside it.

## Left out

- The MongoDB connection, database and collection accessors and `connect` (lib/cachely.rb:83-97): foreign-library I/O. The collection is the map field `Cache.collection`; the constructor takes its existing contents.
- The `ensure_index` calls (lib/cachely.rb:45-46): they change no document.
- `Core#save` (lib/cachely.rb:23-25): a stub that answers true.
- `Time.now`: the clock is the integer parameter `now` in whole seconds. Ruby time arithmetic can be fractional and MongoDB stores times to the millisecond; neither is modelled, and float ttls are not modelled.
- `Core.CalcExpires`: Core's own default for the ttl argument (`@options[:lifetime]`) is not modelled there, because the only caller, `Mongo#save`, always passes the ttl; the same default appears on `Mongo.Cache.Save`.
- The `cache_id_prefix` and `automatic_serialization` options: declared but never used, so they appear only as default entries.
- The driver's return values of `save`, `remove`, `clean_tags`, `clean_expired` and `clean`: `Mongo.Cache.Save` answers the saved id, the others answer nothing.
- Driver and connection failures, concurrency and races between writers: outside a sequential model.
- `Mongo.Untag`: MongoDB also matches a document whose tags array contains an element equal to the filter, and a scalar filter matches by membership; only whole-sequence equality is modelled.
- `Mongo.Saved`, `Mongo.Fetch`: documents pass through the driver's BSON encoding, so a load returns a decoded copy (symbol hash keys come back as strings), a payload BSON cannot encode makes save raise, and so does an expiry outside BSON's 64-bit millisecond date range; the model stores the payload as an opaque value, returned unchanged, and the expiry as an unbounded integer.
- `Mongo.Fetch`: a stored nil payload loads as nil in Ruby, indistinguishable from a miss; the model's `Option` keeps the two apart.
- Option keys are the names of Ruby symbols; a caller's string key (`"lifetime"` rather than `:lifetime`) is a different key in Ruby and is not modelled.
- `Cachely.Capitalized`: only ASCII letters change case; Ruby's full Unicode case mapping is not modelled.
- `Cachely.Resolve`: the factory calls `.new` on any Class it is given, which lets callers plug in their own backends; `ClassArg` admits only the two classes `Backend` defines.
- `Cachely.Resolve`: `const_get` also finds top-level constants through `Object` (for example `"string"` finds `String`); only the constants `Backend` itself defines resolve here, and `capitalize!` rewriting the caller's own string in place is not modelled.
