/** Client code: what a caller of the Mongo backend can conclude from the engine's contracts alone. */
module Scenarios {
  import opened Wrappers
  import opened Core
  import opened Mongo
  import Cachely
  import MongoLaws

  /** A one-second entry loads at once, and two seconds later is gone from the collection. */
  method GreetingExpires()
  {
    var cache := new Cache<string, string>(map[], map[]);
    var saved := cache.Save("hello", "greeting", ["lang:en"], Int(1), now := 100);
    assert saved == Ok("greeting");
    var first := cache.Load("greeting", now := 100);
    assert first == Some("hello");
    var later := cache.Load("greeting", now := 102);
    assert later == None;
    assert "greeting" !in cache.collection;
  }

  /** Cleaning tag ["x"] removes the two entries tagged exactly ["x"] and keeps the one tagged ["y"]. */
  method TagInvalidation()
  {
    var cache := new Cache<string, string>(map[], map[]);
    var _ := cache.Save("v1", "a", ["x"], Nil, now := 0);
    var _ := cache.Save("v2", "b", ["x"], Nil, now := 0);
    var _ := cache.Save("v3", "c", ["y"], Nil, now := 0);
    ghost var saved := cache.collection;
    assert saved["a"].tags == ["x"] && saved["b"].tags == ["x"] && saved["c"] == Entry("v3", ["y"], None);
    cache.CleanTags(["x"]);
    MongoLaws.UntagThenLoad(saved, ["x"], "a", 1);
    MongoLaws.UntagThenLoad(saved, ["x"], "b", 1);
    MongoLaws.UntagThenLoad(saved, ["x"], "c", 1);
    var a := cache.Load("a", now := 1);
    var b := cache.Load("b", now := 1);
    var c := cache.Load("c", now := 1);
    assert a == None && b == None && c == Some("v3");
  }

  /** An omitted ttl uses the 3600-second lifetime; an explicit nil ttl never expires. */
  method LifetimeAndNilTtl()
  {
    var cache := new Cache<string, int>(map[], map[]);
    var _ := cache.Save(1, "default", now := 0);
    var _ := cache.Save(2, "forever", [], Nil, now := 0);
    assert cache.collection["default"].expires == Some(3600);
    cache.CleanExpired(now := 3601);
    var d := cache.Load("default", now := 3601);
    var f := cache.Load("forever", now := 1000000);
    assert d == None && f == Some(2);
  }

  /** A ttl that is not a number raises before anything is written. */
  method NonNumericTtl()
  {
    var cache := new Cache<string, string>(map[], map["k" := Entry("old", [], None)]);
    var saved := cache.Save("new", "k", [], Str("soon"), now := 0);
    assert saved == Err(TtlNotNumeric(Str("soon")));
    var v := cache.Load("k", now := 0);
    assert v == Some("old");
  }

  /** The factory, given "mongo", builds a backend with the same options as the Mongo constructor. */
  method FactoryBuildsMongo(given: Options)
  {
    Cachely.MongoByName();
    var made := Cachely.Factory(Cachely.StringArg("mongo"), given);
    var cache := new Cache<string, string>(given, map[]);
    assert made == Ok(Cachely.Instance(Cachely.MongoKind, cache.options));
    cache.Clean();
    var v := cache.Load("anything", now := 0);
    assert v == None;
  }
}
