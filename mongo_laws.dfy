/**
 * What one call of the Mongo engine promises about the next: the
 * save/load round trip, lazy eviction, and how the three ways of deleting
 * documents relate to each other and to loads.
 */
module MongoLaws {
  import opened Wrappers
  import opened Core
  import opened Mongo

  /**
   * Save then load: the data comes back exactly while the load's clock has
   * not passed the expiry computed at save time; a nil ttl never expires.
   */
  lemma SaveThenLoad<Id, D>(m: Store<Id, D>, data: D, id: Id, tags: seq<Tag>, ttl: Value, saved: int, now: int)
    ensures ttl == Nil ==> Fetch(Saved(m, data, id, tags, ttl, saved), id, now) == Some(data)
    ensures ttl.Int? ==>
      (Fetch(Saved(m, data, id, tags, ttl, saved), id, now) == Some(data) <==> now <= saved + ttl.i)
  {
  }

  /**
   * Once the ttl has elapsed, the load answers nil and evicts the document:
   * what is left is the earlier collection without that id.
   */
  lemma LoadAfterExpiryEvicts<Id, D>(m: Store<Id, D>, data: D, id: Id, tags: seq<Tag>, ttl: int, saved: int, now: int)
    requires saved + ttl < now
    ensures Fetch(Saved(m, data, id, tags, Int(ttl), saved), id, now) == None
    ensures AfterFetch(Saved(m, data, id, tags, Int(ttl), saved), id, now) == Removed(m, id)
  {
  }

  /**
   * Without a `lifetime` option a save that omits its ttl keeps the data
   * loadable for exactly 3600 seconds.
   */
  lemma DefaultLifetimeRoundTrip<Id, D>(given: Options, m: Store<Id, D>, data: D, id: Id, tags: seq<Tag>, saved: int, now: int)
    requires "lifetime" !in given
    ensures var ttl := Get(Merge(MongoDefaults(), given), "lifetime");
      Fetch(Saved(m, data, id, tags, ttl, saved), id, now) == Some(data) <==> now <= saved + 3600
  {
  }

  /**
   * A save over an existing id leaves no trace of the old document: a tag
   * clean aimed at the old tags spares the new one, and its data is what
   * loads.
   */
  lemma ReplacementDropsOldTags<Id, D>(m: Store<Id, D>, data: D, id: Id, tags: seq<Tag>, ttl: Value, now: int, oldTags: seq<Tag>)
    requires ttl.Nil? || ttl.Int?
    requires oldTags != tags
    ensures id in Untag(Saved(m, data, id, tags, ttl, now), oldTags)
    ensures Untag(Saved(m, data, id, tags, ttl, now), oldTags)[id] == Entry(data, tags, CalcExpires(ttl, now).value)
  {
  }

  /** `remove` undoes a `save` of the same id, whatever was there before. */
  lemma RemoveUndoesSave<Id, D>(m: Store<Id, D>, data: D, id: Id, tags: seq<Tag>, ttl: Value, now: int)
    ensures Removed(Saved(m, data, id, tags, ttl, now), id) == Removed(m, id)
  {
  }

  /**
   * After `remove id` that id loads as nil, every other id loads as before,
   * and removing an absent id changes nothing.
   */
  lemma RemoveThenLoad<Id, D>(m: Store<Id, D>, id: Id, other: Id, now: int)
    ensures Fetch(Removed(m, id), id, now) == None
    ensures other != id ==> Fetch(Removed(m, id), other, now) == Fetch(m, other, now)
    ensures id !in m ==> Removed(m, id) == m
  {
  }

  /**
   * Lazy eviction agrees with the eager sweep: a load answers the same
   * before and after `clean_expired` at the same instant, and the document
   * a load evicts is one the sweep would have removed.
   */
  lemma LazyEvictionAgreesWithSweep<Id, D>(m: Store<Id, D>, id: Id, now: int)
    ensures Fetch(Sweep(m, now), id, now) == Fetch(m, id, now)
    ensures Sweep(AfterFetch(m, id, now), now) == Sweep(m, now)
    ensures AfterFetch(Sweep(m, now), id, now) == Sweep(m, now)
  {
  }

  /** A later sweep removes everything an earlier one did, so the earlier is redundant. */
  lemma LaterSweepSubsumesEarlier<Id, D>(m: Store<Id, D>, t1: int, t2: int)
    requires t1 <= t2
    ensures Sweep(Sweep(m, t1), t2) == Sweep(m, t2)
  {
  }

  /** A document saved with a nil ttl survives every sweep. */
  lemma NeverExpiringSurvivesSweep<Id, D>(m: Store<Id, D>, id: Id, now: int)
    requires id in m && m[id].expires.None?
    ensures id in Sweep(m, now) && Sweep(m, now)[id] == m[id]
  {
  }

  /** Tag cleaning and the expiry sweep remove independent sets of documents: their order does not matter. */
  lemma UntagCommutesWithSweep<Id, D>(m: Store<Id, D>, tags: seq<Tag>, now: int)
    ensures Untag(Sweep(m, now), tags) == Sweep(Untag(m, tags), now)
  {
  }

  /** After `clean_tags(tags)` no document with exactly those tags loads; all others load as before. */
  lemma UntagThenLoad<Id, D>(m: Store<Id, D>, tags: seq<Tag>, id: Id, now: int)
    ensures id in m && m[id].tags == tags ==> Fetch(Untag(m, tags), id, now) == None
    ensures !(id in m && m[id].tags == tags) ==> Fetch(Untag(m, tags), id, now) == Fetch(m, id, now)
  {
  }
}
