/**
 * `Cachely::Backend::Core`: the option defaults every engine starts from,
 * the merge of the caller's options over them, and the expiry computation
 * shared by all engines (lib/cachely.rb:10-31).
 */
module Core {
  import opened Wrappers

  /** The Ruby values that occur as option values and as ttl arguments. */
  datatype Value =
    | Nil
    | Bool(b: bool)
    | Int(i: int)
    | Str(s: string)
    | Hash(h: map<string, Value>)

  /** An options hash; a key is the name of the Ruby symbol used as key. */
  type Options = map<string, Value>

  /**
   * The exceptions the core can raise: `TtlNotNumeric` from `calc_expires`,
   * the other three from `Cachely.factory` (lib/cachely.rb:5).
   */
  datatype Error =
    | TtlNotNumeric(ttl: Value)     // `Time#+` given something other than a number
    | NoToStr                       // factory argument is neither a Class nor responds to `to_str`
    | NilConstantName               // `const_get(nil)`, after `capitalize!` changed nothing
    | BackendNotFound(name: string) // `const_get` of a name Backend does not define

  /** `Hash#[]`: the value under `key`, or nil when the key is absent. */
  function Get(o: Options, key: string): Value
  {
    if key in o then o[key] else Nil
  }

  /** `Core#defaults` (lib/cachely.rb:15-21). */
  function CoreDefaults(): (d: Options)
    ensures d.Keys == {"cache_id_prefix", "lifetime", "automatic_serialization"}
    ensures d["cache_id_prefix"] == Nil
    ensures d["lifetime"] == Int(3600)
    ensures d["automatic_serialization"] == Bool(true)
  {
    map[
      "cache_id_prefix" := Nil,
      "lifetime" := Int(3600),
      "automatic_serialization" := Bool(true)
    ]
  }

  /**
   * `defaults.merge!(given)`: every key of either hash, the caller's value
   * winning wherever the caller supplied the key.
   */
  function Merge(defaults: Options, given: Options): (o: Options)
    ensures o.Keys == defaults.Keys + given.Keys
    ensures forall k :: k in given ==> o[k] == given[k]
    ensures forall k :: k in defaults && k !in given ==> o[k] == defaults[k]
  {
    defaults + given
  }

  /**
   * `Core#calc_expires` (lib/cachely.rb:27-30): no expiry for a nil ttl,
   * otherwise `now + ttl`; any other kind of ttl makes `Time#+` raise.
   */
  function CalcExpires(ttl: Value, now: int): (r: Result<Option<int>, Error>)
    ensures r == Ok(None) <==> ttl == Nil
    ensures r.Ok? <==> ttl.Nil? || ttl.Int?
    ensures ttl.Int? ==> r == Ok(Some(now + ttl.i))
    ensures r.Err? ==> r.error == TtlNotNumeric(ttl)
  {
    match ttl
    case Nil => Ok(None)
    case Int(n) => Ok(Some(now + n))
    case _ => Err(TtlNotNumeric(ttl))
  }

  /** Options a caller leaves alone keep their default; the others take the caller's value. */
  lemma CallerOverridesDefault(defaults: Options, given: Options, key: string)
    ensures Get(Merge(defaults, given), key) == (if key in given then given[key] else Get(defaults, key))
  {
  }

  /** A Core backend built without a `lifetime` option lets entries live 3600 seconds. */
  lemma CoreLifetimeDefault(given: Options)
    requires "lifetime" !in given
    ensures Get(Merge(CoreDefaults(), given), "lifetime") == Int(3600)
  {
  }
}
