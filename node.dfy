/**
  The memoizing Node: a source plus a cache that starts empty and is filled by
  the first query, with exactly one read of the source. Empty -> Filled is the
  only transition; a filled Node never reads its source again.
 */
module Node {
  import opened Wrappers
  import opened Source

  /** What one query leaves behind: the cache, the source's read count, the value handed out. */
  datatype Step<T> = Step(cache: Option<T>, count: nat, result: T)

  /**
    One query, in any of the three modes, on a Node whose cache is `cache` and
    whose source (with schedule `outputs`) has been read `count` times.
   */
  function QueryStep<T>(cache: Option<T>, outputs: nat -> T, count: nat): (s: Step<T>)
    ensures s.cache.Some? && s.result == s.cache.value
    ensures s.count == count + 1 <==> cache.None?
    ensures cache.Some? ==> s.count == count && s.cache == cache
    ensures cache.None? ==> s.result == outputs(count)
  {
    match cache
    case None => Step(Some(outputs(count)), count + 1, outputs(count))
    case Some(v) => Step(cache, count, v)
  }

  /** What `n` successive queries hand out, and the state they leave. */
  datatype Trace<T> = Trace(results: seq<T>, cache: Option<T>, count: nat)

  function Queries<T>(cache: Option<T>, outputs: nat -> T, count: nat, n: nat): Trace<T>
    decreases n
  {
    if n == 0 then Trace([], cache, count)
    else
      var s := QueryStep(cache, outputs, count);
      var rest := Queries(s.cache, outputs, s.count, n - 1);
      Trace([s.result] + rest.results, rest.cache, rest.count)
  }

  /** The value every query of the Node hands out: the cached one, or else the next read. */
  function Materialized<T>(cache: Option<T>, outputs: nat -> T, count: nat): T
  {
    match cache
    case Some(v) => v
    case None => outputs(count)
  }

  /**
    Across any number of queries the source is read at most once: exactly once
    if the cache started empty and there was a query, never otherwise; every
    query hands out the value of that single read, which stays cached.
   */
  lemma {:induction false} QueriesReadAtMostOnce<T>(cache: Option<T>, outputs: nat -> T, count: nat, n: nat)
    ensures |Queries(cache, outputs, count, n).results| == n
    ensures Queries(cache, outputs, count, n).count
      == count + (if cache.None? && n > 0 then 1 else 0)
    ensures forall i :: 0 <= i < n ==>
      Queries(cache, outputs, count, n).results[i] == Materialized(cache, outputs, count)
    ensures n > 0 ==>
      Queries(cache, outputs, count, n).cache == Some(Materialized(cache, outputs, count))
    ensures n == 0 ==> Queries(cache, outputs, count, n).cache == cache
    decreases n
  {
    if n > 0 {
      var s := QueryStep(cache, outputs, count);
      QueriesReadAtMostOnce(s.cache, outputs, s.count, n - 1);
      assert Materialized(s.cache, outputs, s.count) == Materialized(cache, outputs, count);
    }
  }

  class Node<T> {
    const source: Producer<T>
    var value: Option<T>

    /** A new Node has an empty cache and has not read its source. */
    constructor (source: Producer<T>)
      ensures this.source == source && value == None
      ensures source.count == old(source.count)
      ensures source.log.history == old(source.log.history)
    {
      this.source := source;
      value := None;
    }

    /** `query`: fill the cache if it is empty, then hand out the cached value. */
    method Query() returns (c: ConstSource<T>)
      modifies this, source, source.log
      ensures fresh(c)
      ensures Step(value, source.count, c.value) == QueryStep(old(value), source.outputs, old(source.count))
      ensures source.log.history == old(source.log.history) + (if old(value).None? then [source] else [])
    {
      if value.None? {
        var v := source.Read();
        value := Some(v);
      }
      match value
      case None => assert false;
      case Some(v) => c := new ConstSource(v);
    }

    /** `query_copying`: hand out a copy of the cached value, reading only if nothing is cached. */
    method QueryCopying() returns (c: ConstSource<T>)
      modifies this, source, source.log
      ensures fresh(c)
      ensures Step(value, source.count, c.value) == QueryStep(old(value), source.outputs, old(source.count))
      ensures source.log.history == old(source.log.history) + (if old(value).None? then [source] else [])
    {
      match value
      case Some(v) =>
        c := new ConstSource(v);
      case None =>
        var v := source.Read();
        value := Some(v);
        c := new ConstSource(v);
    }

    /** `query_cloning`: fill the cache if it is empty, then hand out a clone of the cached value. */
    method QueryCloning() returns (c: ConstSource<T>)
      modifies this, source, source.log
      ensures fresh(c)
      ensures Step(value, source.count, c.value) == QueryStep(old(value), source.outputs, old(source.count))
      ensures source.log.history == old(source.log.history) + (if old(value).None? then [source] else [])
    {
      if value.None? {
        var v := source.Read();
        value := Some(v);
      }
      match value
      case None => assert false;
      case Some(v) => c := new ConstSource(v);
    }
  }

  /** The three ways to query a Node: `query`, `query_copying` and `query_cloning`. */
  datatype Mode = ByReference | ByCopy | ByClone

  /**
    Any sequence of queries, in any mix of modes, on one Node, each handed-out
    source read once: exactly what `Queries` describes, so one read at most.
   */
  method QueryRepeatedly<T>(node: Node<T>, modes: seq<Mode>) returns (rs: seq<T>)
    modifies node, node.source, node.source.log
    ensures Trace(rs, node.value, node.source.count)
      == Queries(old(node.value), node.source.outputs, old(node.source.count), |modes|)
    ensures node.source.count <= old(node.source.count) + 1
    ensures |rs| == |modes|
    ensures node.source.log.history
      == old(node.source.log.history) + (if old(node.value).None? && |modes| > 0 then [node.source] else [])
    ensures forall i :: 0 <= i < |modes| ==>
      rs[i] == Materialized(old(node.value), node.source.outputs, old(node.source.count))
  {
    ghost var v0, c0, h0 := node.value, node.source.count, node.source.log.history;
    ghost var m := Materialized(v0, node.source.outputs, c0);
    rs := [];
    var i := 0;
    while i < |modes|
      invariant 0 <= i <= |modes|
      invariant |rs| == i
      invariant forall k :: 0 <= k < i ==> rs[k] == m
      invariant node.value == if i == 0 then v0 else Some(m)
      invariant node.source.count == c0 + (if v0.None? && i > 0 then 1 else 0)
      invariant node.source.log.history == h0 + (if v0.None? && i > 0 then [node.source] else [])
    {
      var c: ConstSource<T>;
      match modes[i] {
        case ByReference => c := node.Query();
        case ByCopy => c := node.QueryCopying();
        case ByClone => c := node.QueryCloning();
      }
      var r := c.Read();
      rs := rs + [r];
      i := i + 1;
    }
    QueriesReadAtMostOnce(v0, node.source.outputs, c0, |modes|);
  }

  /**
    A text source (`TextFileSource`) over a file holding "hello", wrapped in a
    Node. Its file handle is opened once, so a second read starts where the
    first stopped: after the file's contents change to "world", the source
    itself yields `Ok("")`. Both clones handed out are still `Ok("hello")`.
   */
  method CacheOverReread() returns (first: Result<string, string>, second: Result<string, string>,
                                    reread: Result<string, string>)
    ensures first == Ok("hello") && second == Ok("hello")
    ensures reread == Ok("")
  {
    var log := new Log();
    var file := new Producer((k: nat) => if k == 0 then Ok("hello") else Ok(""), log);
    var node := new Node(file);
    var c1 := node.QueryCloning();
    first := c1.Read();
    var c2 := node.QueryCloning();
    second := c2.Read();
    reread := file.Read();
  }

}
