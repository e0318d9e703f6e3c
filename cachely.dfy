/**
 * `Cachely.factory` (lib/cachely.rb:4-7): pick a backend class, either
 * given directly or by name through `String#capitalize!` and
 * `Backend.const_get`, and build it from the caller's options.
 */
module Cachely {
  import opened Wrappers
  import opened Core
  import Mongo

  /** The classes `Cachely::Backend` defines. */
  datatype Kind = CoreKind | MongoKind

  /** The constant each class is defined under. */
  function ConstName(k: Kind): string
  {
    match k
    case CoreKind => "Core"
    case MongoKind => "Mongo"
  }

  /** `defaults` as each class answers it. */
  function Defaults(k: Kind): Options
  {
    match k
    case CoreKind => CoreDefaults()
    case MongoKind => Mongo.MongoDefaults()
  }

  /** The first argument of `factory`: a Class, a String, or anything else. */
  datatype BackendArg = ClassArg(kind: Kind) | StringArg(name: string) | OtherArg

  /** A new backend: its class and its `@options`. */
  datatype Instance = Instance(kind: Kind, options: Options)

  function UpcaseChar(c: char): char
  {
    if 'a' <= c <= 'z' then (c as int - 32) as char else c
  }

  function DowncaseChar(c: char): char
  {
    if 'A' <= c <= 'Z' then (c as int + 32) as char else c
  }

  /** `String#downcase`, character by character. */
  function Downcase(s: string): (r: string)
    ensures |r| == |s|
    ensures forall i :: 0 <= i < |s| ==> r[i] == DowncaseChar(s[i])
  {
    if s == [] then [] else [DowncaseChar(s[0])] + Downcase(s[1..])
  }

  /** `String#capitalize`: the first character in upper case, the rest in lower case. */
  function Capitalized(s: string): (r: string)
    ensures |r| == |s|
    ensures |s| > 0 ==> r[0] == UpcaseChar(s[0])
    ensures forall i :: 0 < i < |s| ==> r[i] == DowncaseChar(s[i])
  {
    if s == [] then [] else [UpcaseChar(s[0])] + Downcase(s[1..])
  }

  /** `String#capitalize!`: the capitalised string, or nil when that changes nothing. */
  function CapitalizeBang(s: string): (r: Option<string>)
    ensures r.None? <==> Capitalized(s) == s
    ensures r.Some? ==> r.value == Capitalized(s) && r.value != s
  {
    var c := Capitalized(s);
    if c == s then None else Some(c)
  }

  /** `Cachely::Backend.const_get(name)`: nil is refused, and only the two class names resolve. */
  function ConstGet(name: Option<string>): Result<Kind, Error>
  {
    match name
    case None => Err(NilConstantName)
    case Some(n) =>
      if n == ConstName(CoreKind) then Ok(CoreKind)
      else if n == ConstName(MongoKind) then Ok(MongoKind)
      else Err(BackendNotFound(n))
  }

  /** The class `factory` instantiates, as written: a Class as is, a name through `capitalize!`. */
  function Resolve(arg: BackendArg): (r: Result<Kind, Error>)
    ensures arg.ClassArg? ==> r == Ok(arg.kind)
    ensures arg.OtherArg? ==> r == Err(NoToStr)
    ensures arg.StringArg? ==> forall k ::
      r == Ok(k) <==> Capitalized(arg.name) == ConstName(k) && arg.name != ConstName(k)
    ensures arg.StringArg? && Capitalized(arg.name) == arg.name ==> r == Err(NilConstantName)
    ensures arg.StringArg? && Capitalized(arg.name) != arg.name && (forall k :: Capitalized(arg.name) != ConstName(k)) ==>
      r == Err(BackendNotFound(Capitalized(arg.name)))
  {
    match arg
    case ClassArg(k) => Ok(k)
    case StringArg(name) => ConstGet(CapitalizeBang(name))
    case OtherArg => Err(NoToStr)
  }

  /** `Cachely.factory(backend, options)`: the resolved class, built by `Core#initialize`. */
  function Factory(arg: BackendArg, given: Options): (r: Result<Instance, Error>)
    ensures r.Ok? <==> Resolve(arg).Ok?
    ensures r.Ok? ==> r.value.kind == Resolve(arg).value
    ensures r.Ok? ==> forall key :: Get(r.value.options, key) == (if key in given then given[key] else Get(Defaults(r.value.kind), key))
    ensures r.Err? ==> r.error == Resolve(arg).error
  {
    match Resolve(arg)
    case Ok(k) =>
      var options := Merge(Defaults(k), given);
      assert forall key :: Get(options, key) == (if key in given then given[key] else Get(Defaults(k), key)) by {
        forall key ensures Get(options, key) == (if key in given then given[key] else Get(Defaults(k), key)) {
          CallerOverridesDefault(Defaults(k), given, key);
        }
      }
      Ok(Instance(k, options))
    case Err(e) => Err(e)
  }

  /** A capitalised string is its own capital form. */
  lemma CapitalizedIsFixedPoint(s: string)
    ensures Capitalized(Capitalized(s)) == Capitalized(s)
  {
  }

  /** So `capitalize!` on what `capitalize!` returned always answers nil. */
  lemma CapitalizeBangTwiceIsNil(s: string)
    requires CapitalizeBang(s).Some?
    ensures CapitalizeBang(CapitalizeBang(s).value) == None
  {
  }

  /** "mongo" and "MONGO" select the Mongo backend; "Mongo" itself fails. */
  lemma MongoByName()
    ensures Resolve(StringArg("mongo")) == Ok(MongoKind)
    ensures Resolve(StringArg("MONGO")) == Ok(MongoKind)
    ensures Resolve(StringArg("Mongo")) == Err(NilConstantName)
  {
  }

  /** Name resolution as evidently intended, with `capitalize` in place of `capitalize!`. */
  function ResolveIntended(arg: BackendArg): (r: Result<Kind, Error>)
    ensures arg.ClassArg? ==> r == Ok(arg.kind)
    ensures arg.OtherArg? ==> r == Err(NoToStr)
    ensures arg.StringArg? ==> forall k :: r == Ok(k) <==> Capitalized(arg.name) == ConstName(k)
    ensures arg.StringArg? && (forall k :: Capitalized(arg.name) != ConstName(k)) ==>
      r == Err(BackendNotFound(Capitalized(arg.name)))
  {
    match arg
    case ClassArg(k) => Ok(k)
    case StringArg(name) => ConstGet(Some(Capitalized(name)))
    case OtherArg => Err(NoToStr)
  }

  /** With `capitalize`, each class's own constant name resolves to it, and so does every name the written code accepts. */
  lemma IntendedResolution(k: Kind, arg: BackendArg)
    ensures ResolveIntended(StringArg(ConstName(k))) == Ok(k)
    ensures Resolve(arg).Ok? ==> ResolveIntended(arg) == Resolve(arg)
  {
  }

  /** A Mongo backend built by name without a `lifetime` option lets entries live 3600 seconds. */
  lemma MongoLifetimeDefault(name: string, given: Options)
    requires Resolve(StringArg(name)) == Ok(MongoKind)
    requires "lifetime" !in given
    ensures Factory(StringArg(name), given).Ok?
    ensures Get(Factory(StringArg(name), given).value.options, "lifetime") == Int(3600)
  {
  }
}
