/**
 * `Cachely::Backend::Mongo` (lib/cachely.rb:33-98), with the MongoDB
 * collection replaced by a map from `_id` to the stored document and the
 * clock `Time.now` replaced by an explicit integer `now` (seconds).
 */
module Mongo {
  import opened Wrappers
  import opened Core

  type Tag = string

  /** `Mongo#defaults` (lib/cachely.rb:34-42): the Core defaults extended with the connection settings. */
  function MongoDefaults(): (d: Options)
    ensures forall k :: k in CoreDefaults() ==> k in d && d[k] == CoreDefaults()[k]
    ensures d.Keys == CoreDefaults().Keys + {"host", "port", "dbname", "collection", "config"}
  {
    Merge(CoreDefaults(), map[
      "host" := Str("localhost"),
      "port" := Str("27017"),
      "dbname" := Str("cachely"),
      "collection" := Str("cache"),
      "config" := Hash(map[])
    ])
  }

  /** One cache document: `{_id: id, data: …, tags: …, expires: …}` without its `_id`. */
  datatype Entry<D> = Entry(data: D, tags: seq<Tag>, expires: Option<int>)

  /** The collection: each `_id` present maps to its one document. */
  type Store<Id, D> = map<Id, Entry<D>>

  /** `doc["expires"] && doc["expires"] < now`: an expiry is set and lies strictly in the past. */
  predicate Expired<D>(e: Entry<D>, now: int)
  {
    e.expires.Some? && e.expires.value < now
  }

  /** The document `save` writes, or the exception `calc_expires` raises first. */
  function SaveEntry<D>(data: D, tags: seq<Tag>, ttl: Value, now: int): (r: Result<Entry<D>, Error>)
    ensures r.Ok? <==> ttl.Nil? || ttl.Int?
    ensures r.Ok? ==> r.value.data == data && r.value.tags == tags
    ensures r.Ok? ==> (r.value.expires.None? <==> ttl.Nil?)
    ensures ttl.Int? ==> r.Ok? && r.value.expires == Some(now + ttl.i)
  {
    match CalcExpires(ttl, now)
    case Ok(expires) => Ok(Entry(data, tags, expires))
    case Err(e) => Err(e)
  }

  /** The collection after `save`: an upsert by `_id` that replaces the whole document. */
  function Saved<Id, D>(m: Store<Id, D>, data: D, id: Id, tags: seq<Tag>, ttl: Value, now: int): (r: Store<Id, D>)
    ensures SaveEntry(data, tags, ttl, now).Err? ==> r == m
    ensures SaveEntry(data, tags, ttl, now).Ok? ==>
      && r.Keys == m.Keys + {id}
      && r[id] == SaveEntry(data, tags, ttl, now).value
      && forall k :: k in m && k != id ==> r[k] == m[k]
  {
    match SaveEntry(data, tags, ttl, now)
    case Ok(e) => m[id := e]
    case Err(_) => m
  }

  /** What `load` answers: the stored data, unless the id is missing or its document has expired. */
  function Fetch<Id, D>(m: Store<Id, D>, id: Id, now: int): (r: Option<D>)
    ensures r.Some? <==> id in m && !Expired(m[id], now)
    ensures r.Some? ==> r.value == m[id].data
  {
    if id in m && !Expired(m[id], now) then Some(m[id].data) else None
  }

  /** The collection after `remove id`: that id is gone, if it was there, and nothing else changes. */
  function Removed<Id, D>(m: Store<Id, D>, id: Id): (r: Store<Id, D>)
    ensures r.Keys == m.Keys - {id}
    ensures forall k :: k in r ==> r[k] == m[k]
  {
    m - {id}
  }

  /** The collection after `clean`: `drop` leaves no document at all. */
  function Cleared<Id, D>(): (r: Store<Id, D>)
    ensures r.Keys == {}
  {
    map[]
  }

  /** The collection after `load`: an expired document it finds is evicted, nothing else changes. */
  function AfterFetch<Id, D>(m: Store<Id, D>, id: Id, now: int): (r: Store<Id, D>)
    ensures r.Keys == if id in m && Expired(m[id], now) then m.Keys - {id} else m.Keys
    ensures forall k :: k in r ==> r[k] == m[k]
  {
    if id in m && Expired(m[id], now) then Removed(m, id) else m
  }

  /** The collection after `clean_expired`: every document expired at `now` is gone, the rest stay. */
  function Sweep<Id, D>(m: Store<Id, D>, now: int): (r: Store<Id, D>)
    ensures forall id :: id in m ==> (id in r <==> !Expired(m[id], now))
    ensures forall id :: id in r ==> id in m && r[id] == m[id]
  {
    map id | id in m && !Expired(m[id], now) :: m[id]
  }

  /**
   * The collection after `clean_tags(tags)`: MongoDB's equality filter
   * `{tags: tags}` on an array field matches a document whose whole tags
   * array equals `tags`; those documents go, the rest stay.
   */
  function Untag<Id, D>(m: Store<Id, D>, tags: seq<Tag>): (r: Store<Id, D>)
    ensures forall id :: id in m ==> (id in r <==> m[id].tags != tags)
    ensures forall id :: id in r ==> id in m && r[id] == m[id]
  {
    map id | id in m && m[id].tags != tags :: m[id]
  }

  /** A Mongo cache backend and the collection it writes to. */
  class Cache<Id(==), D> {
    /** `@options`, fixed at construction. */
    const options: Options
    /** The documents of the cache collection, by `_id`. */
    var collection: Store<Id, D>

    /**
     * `Core#initialize` as inherited by Mongo: the caller's options merged
     * over `Mongo#defaults`. The collection already holds whatever earlier
     * backends stored in it.
     */
    constructor(given: Options, existing: Store<Id, D>)
      ensures options == Merge(MongoDefaults(), given)
      ensures collection == existing
    {
      options := Merge(MongoDefaults(), given);
      collection := existing;
    }

    /**
     * `save data, id, tags = [], ttl = @options[:lifetime]`: upsert the
     * document under `id`, or raise before writing when the ttl is not a
     * number. Answers the saved `_id`.
     */
    method Save(data: D, id: Id, tags: seq<Tag> := [], ttl: Value := Get(options, "lifetime"), nameonly now: int)
      returns (r: Result<Id, Error>)
      modifies this
      ensures collection == Saved(old(collection), data, id, tags, ttl, now)
      ensures r == match SaveEntry(data, tags, ttl, now)
                   case Ok(_) => Ok(id)
                   case Err(e) => Err(e)
    {
      var entry := SaveEntry(data, tags, ttl, now);
      if entry.Err? {
        return Err(entry.error);
      }
      collection := collection[id := entry.value];
      r := Ok(id);
    }

    /** `load id`, evicting the document when it has expired. */
    method Load(id: Id, nameonly now: int) returns (r: Option<D>)
      modifies this
      ensures r == Fetch(old(collection), id, now)
      ensures collection == AfterFetch(old(collection), id, now)
    {
      if id !in collection {
        return None;
      }
      var doc := collection[id];
      if doc.expires.Some? && doc.expires.value < now {
        Remove(id);
        return None;
      }
      r := Some(doc.data);
    }

    /** `remove id`: delete the document under `id`, if there is one. */
    method Remove(id: Id)
      modifies this
      ensures collection == Removed(old(collection), id)
    {
      collection := Removed(collection, id);
    }

    /** `clean_tags tags`. */
    method CleanTags(tags: seq<Tag>)
      modifies this
      ensures collection == Untag(old(collection), tags)
    {
      collection := Untag(collection, tags);
    }

    /** `clean_expired`. */
    method CleanExpired(nameonly now: int)
      modifies this
      ensures collection == Sweep(old(collection), now)
    {
      collection := Sweep(collection, now);
    }

    /** `clean`: drop the whole collection. */
    method Clean()
      modifies this
      ensures collection == Cleared()
    {
      collection := Cleared();
    }
  }
}
