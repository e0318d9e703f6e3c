/**
 * Sequences of Mongo engine calls. Each operation's effect on the
 * collection is the one the engine's methods state; these lemmas follow a
 * collection through any number of them.
 */
module MongoTraces {
  import opened Wrappers
  import opened Core
  import opened Mongo

  /** One call on the engine, with the clock reading it sees. */
  datatype Op<Id, D> =
    | SaveOp(data: D, id: Id, tags: seq<Tag>, ttl: Value, now: int)
    | LoadOp(id: Id, now: int)
    | RemoveOp(id: Id)
    | CleanTagsOp(tags: seq<Tag>)
    | CleanExpiredOp(now: int)
    | CleanOp

  /** The collection after one call, as `Mongo.Cache`'s methods leave it. */
  function Step<Id, D>(m: Store<Id, D>, op: Op<Id, D>): Store<Id, D>
  {
    match op
    case SaveOp(data, id, tags, ttl, now) => Saved(m, data, id, tags, ttl, now)
    case LoadOp(id, now) => AfterFetch(m, id, now)
    case RemoveOp(id) => Removed(m, id)
    case CleanTagsOp(tags) => Untag(m, tags)
    case CleanExpiredOp(now) => Sweep(m, now)
    case CleanOp => Cleared()
  }

  /** The collection after the calls `ops`, in order, starting from `m`. */
  function Run<Id, D>(m: Store<Id, D>, ops: seq<Op<Id, D>>): Store<Id, D>
    decreases |ops|
  {
    if ops == [] then m else Step(Run(m, ops[..|ops| - 1]), ops[|ops| - 1])
  }

  /** The document `op` writes under `id`: only a save of that id whose ttl is a number or nil writes. */
  function Written<Id(==), D>(op: Op<Id, D>, id: Id): Option<Entry<D>>
  {
    match op
    case SaveOp(data, i, tags, ttl, now) =>
      if i == id && SaveEntry(data, tags, ttl, now).Ok? then Some(SaveEntry(data, tags, ttl, now).value) else None
    case _ => None
  }

  /** The document the last writing call of `ops` wrote under `id`. */
  function LastWrite<Id(==), D>(ops: seq<Op<Id, D>>, id: Id): Option<Entry<D>>
    decreases |ops|
  {
    if ops == [] then None
    else if Written(ops[|ops| - 1], id).Some? then Written(ops[|ops| - 1], id)
    else LastWrite(ops[..|ops| - 1], id)
  }

  /** No call of `ops` is a save. */
  predicate NoSaves<Id, D>(ops: seq<Op<Id, D>>)
  {
    forall i :: 0 <= i < |ops| ==> !ops[i].SaveOp?
  }

  /** A call that does not write under `id` can only keep or delete the document there. */
  lemma StepKeepsUnwritten<Id, D>(m: Store<Id, D>, op: Op<Id, D>, id: Id)
    requires Written(op, id).None?
    requires id in Step(m, op)
    ensures id in m && Step(m, op)[id] == m[id]
  {
  }

  /**
   * Every document in the collection is the one the last successful save of
   * its id wrote, or, when no call saved that id, the one it held at the
   * start: saves replace whole documents and nothing else edits them.
   */
  lemma {:induction false} StoredEntryIsLastWrite<Id, D>(m: Store<Id, D>, ops: seq<Op<Id, D>>, id: Id)
    requires id in Run(m, ops)
    ensures LastWrite(ops, id).Some? ==> Run(m, ops)[id] == LastWrite(ops, id).value
    ensures LastWrite(ops, id).None? ==> id in m && Run(m, ops)[id] == m[id]
  {
    if ops != [] {
      var prefix, op := ops[..|ops| - 1], ops[|ops| - 1];
      if Written(op, id).None? {
        StepKeepsUnwritten(Run(m, prefix), op, id);
        StoredEntryIsLastWrite(m, prefix, id);
      }
    }
  }

  /** Running two traces one after the other is running their concatenation. */
  lemma {:induction false} RunAppend<Id, D>(m: Store<Id, D>, a: seq<Op<Id, D>>, b: seq<Op<Id, D>>)
    ensures Run(m, a + b) == Run(Run(m, a), b)
    decreases |b|
  {
    if b == [] {
      assert a + b == a;
    } else {
      var b' := b[..|b| - 1];
      assert (a + b)[..|a + b| - 1] == a + b';
      assert (a + b)[|a + b| - 1] == b[|b| - 1];
      RunAppend(m, a, b');
    }
  }

  /** Calls other than save only ever delete documents: none appears, none changes. */
  lemma {:induction false} DeletionsOnlyShrink<Id, D>(m: Store<Id, D>, ops: seq<Op<Id, D>>)
    requires NoSaves(ops)
    ensures Run(m, ops).Keys <= m.Keys
    ensures forall id :: id in Run(m, ops) ==> Run(m, ops)[id] == m[id]
    decreases |ops|
  {
    if ops != [] {
      var prefix := ops[..|ops| - 1];
      assert NoSaves(prefix) by {
        forall i | 0 <= i < |prefix| ensures !prefix[i].SaveOp? {
          assert prefix[i] == ops[i];
        }
      }
      DeletionsOnlyShrink(m, prefix);
    }
  }

  /** After `clean`, and until the next save, every load answers nil. */
  lemma CleanForgetsEverything<Id, D>(m: Store<Id, D>, before: seq<Op<Id, D>>, after: seq<Op<Id, D>>, id: Id, now: int)
    requires NoSaves(after)
    ensures Run(m, before + [CleanOp] + after) == map[]
    ensures Fetch(Run(m, before + [CleanOp] + after), id, now) == None
  {
    RunAppend(m, before + [CleanOp], after);
    RunAppend(m, before, [CleanOp]);
    DeletionsOnlyShrink(map[], after);
  }
}
