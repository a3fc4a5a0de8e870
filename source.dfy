/**
  The producer abstraction and its combinators.

  A source answers `Read` with one value and may change state in doing so. A
  leaf source is a `Producer`: the value of its k-th read (counting from 0) is
  `outputs(k)`, and `count` is the number of reads so far. Every read is also
  recorded, by the identity of the source read, in a `Log` that several sources
  may share: the log is the program's history of effects, so the order in which
  a combinator reads its sources is part of what its contract states.
 */
module Source {

  /** The shared history of reads: one entry, the source read, per read. */
  class Log {
    ghost var history: seq<object>

    constructor ()
      ensures history == []
    {
      history := [];
    }
  }

  /** A leaf source: its k-th read yields `outputs(k)` and is recorded in `log`. */
  class Producer<T> {
    const outputs: nat -> T
    ghost const log: Log
    var count: nat

    constructor (outputs: nat -> T, ghost log: Log)
      ensures this.outputs == outputs && this.log == log && count == 0
    {
      this.outputs := outputs;
      this.log := log;
      count := 0;
    }

    /** One read: the next scheduled value, one more read on record, and this read logged. */
    method Read() returns (v: T)
      modifies this, log
      ensures v == outputs(old(count))
      ensures count == old(count) + 1
      ensures log.history == old(log.history) + [this]
    {
      v := outputs(count);
      count := count + 1;
      log.history := log.history + [this];
    }
  }

  /** The source a Node's query hands back: every read yields the cached value. */
  class ConstSource<T> {
    const value: T

    constructor (value: T)
      ensures this.value == value
    {
      this.value := value;
    }

    method Read() returns (v: T)
      ensures v == value
    {
      v := value;
    }
  }

  /**
    `map(source, f)`: every read of the map source is one read of `inner`
    followed by `transformer`. Nothing is cached.
   */
  class MapSource<A, B> {
    const inner: Producer<A>
    const transformer: A -> B

    /** Building the map source reads nothing. */
    constructor (source: Producer<A>, f: A -> B)
      ensures inner == source && transformer == f
      ensures source.count == old(source.count)
      ensures source.log.history == old(source.log.history)
    {
      inner := source;
      transformer := f;
    }

    method Read() returns (v: B)
      modifies inner, inner.log
      ensures v == transformer(inner.outputs(old(inner.count)))
      ensures inner.count == old(inner.count) + 1
      ensures inner.log.history == old(inner.log.history) + [inner]
    {
      var x := inner.Read();
      v := transformer(x);
    }
  }

  /** What `n` successive reads hand out, and the inner read count they leave. */
  datatype Reads<T> = Reads(values: seq<T>, count: nat)

  /**
    `n` successive reads of a map source with transformer `f` whose inner
    source, with schedule `outputs`, has been read `count` times: each read is
    one `MapSource.Read`.
   */
  function MapReads<A, B>(f: A -> B, outputs: nat -> A, count: nat, n: nat): Reads<B>
    decreases n
  {
    if n == 0 then Reads([], count)
    else
      var v := f(outputs(count));
      var rest := MapReads(f, outputs, count + 1, n - 1);
      Reads([v] + rest.values, rest.count)
  }

  /**
    A map source caches nothing: `n` reads of it are `n` reads of the inner
    source, and the i-th value is the transformer applied to the inner
    source's i-th next value.
   */
  lemma {:induction false} MapReadsAreInnerReads<A, B>(f: A -> B, outputs: nat -> A, count: nat, n: nat)
    ensures MapReads(f, outputs, count, n).count == count + n
    ensures |MapReads(f, outputs, count, n).values| == n
    ensures forall i :: 0 <= i < n ==> MapReads(f, outputs, count, n).values[i] == f(outputs(count + i))
    decreases n
  {
    if n > 0 {
      MapReadsAreInnerReads(f, outputs, count + 1, n - 1);
      var rest := MapReads(f, outputs, count + 1, n - 1);
      forall i | 0 <= i < n
        ensures MapReads(f, outputs, count, n).values[i] == f(outputs(count + i))
      {
        if i > 0 {
          assert MapReads(f, outputs, count, n).values[i] == rest.values[i - 1];
        }
      }
    }
  }

  /** `n` reads of a map source, one after the other, are what `MapReads` describes. */
  method ReadMapRepeatedly<A, B>(m: MapSource<A, B>, n: nat) returns (vs: seq<B>)
    modifies m.inner, m.inner.log
    ensures Reads(vs, m.inner.count) == MapReads(m.transformer, m.inner.outputs, old(m.inner.count), n)
    ensures m.inner.log.history == old(m.inner.log.history) + seq(n, _ => m.inner)
  {
    vs := [];
    var i := 0;
    while i < n
      invariant 0 <= i <= n
      invariant |vs| == i
      invariant m.inner.count == old(m.inner.count) + i
      invariant forall k :: 0 <= k < i ==> vs[k] == m.transformer(m.inner.outputs(old(m.inner.count) + k))
      invariant m.inner.log.history == old(m.inner.log.history) + seq(i, _ => m.inner)
    {
      var v := m.Read();
      vs := vs + [v];
      assert seq(i + 1, _ => m.inner) == seq(i, _ => m.inner) + [m.inner];
      i := i + 1;
    }
    MapReadsAreInnerReads(m.transformer, m.inner.outputs, old(m.inner.count), n);
  }

  /** No two positions of `ps` hold the same source object. */
  ghost predicate Distinct<T>(ps: seq<Producer<T>>)
  {
    forall i, j :: 0 <= i < j < |ps| ==> ps[i] != ps[j]
  }

  /**
    `parallel(sources)`: every read reads each source once, in slice order,
    and collects the values in that order. The reads are sequential. `log` is
    the history the sources record their reads in.
   */
  class ParallelSource<T> {
    const sources: seq<Producer<T>>
    ghost const log: Log

    /** The Rust `&mut` slice of `&mut` sources never aliases two entries. */
    constructor (sources: seq<Producer<T>>, ghost log: Log)
      requires Distinct(sources)
      requires forall i :: 0 <= i < |sources| ==> sources[i].log == log
      ensures this.sources == sources && this.log == log
      ensures Valid()
    {
      this.sources := sources;
      this.log := log;
    }

    ghost predicate Valid()
    {
      Distinct(sources) && forall i :: 0 <= i < |sources| ==> sources[i].log == log
    }

    method Read() returns (vs: seq<T>)
      requires Valid()
      modifies sources, log
      ensures |vs| == |sources|
      ensures forall i :: 0 <= i < |sources| ==>
        vs[i] == sources[i].outputs(old(sources[i].count))
      ensures forall i :: 0 <= i < |sources| ==>
        sources[i].count == old(sources[i].count) + 1
      ensures log.history == old(log.history) + sources
    {
      vs := [];
      var i := 0;
      while i < |sources|
        invariant 0 <= i <= |sources|
        invariant |vs| == i
        invariant forall k :: 0 <= k < i ==>
          vs[k] == sources[k].outputs(old(sources[k].count))
        invariant forall k :: 0 <= k < i ==>
          sources[k].count == old(sources[k].count) + 1
        invariant forall k :: i <= k < |sources| ==>
          sources[k].count == old(sources[k].count)
        invariant log.history == old(log.history) + sources[..i]
      {
        var v := sources[i].Read();
        vs := vs + [v];
        assert sources[..i + 1] == sources[..i] + [sources[i]];
        i := i + 1;
      }
      assert sources[..i] == sources;
    }
  }

  /**
    `parallel([p1, p2, p3])` hands out `[p1.read(), p2.read(), p3.read()]`, and
    `parallel([])` hands out `[]`.
   */
  method ParallelInOrder() returns (vs: seq<int>, none: seq<int>)
    ensures vs == [1, 2, 3]
    ensures none == []
  {
    var log := new Log();
    var p1 := new Producer((k: nat) => 1, log);
    var p2 := new Producer((k: nat) => 2 + k, log);
    var p3 := new Producer((k: nat) => 3 * (k + 1), log);
    var par := new ParallelSource([p1, p2, p3], log);
    vs := par.Read();
    assert log.history == [p1, p2, p3];
    var empty := new ParallelSource([], log);
    none := empty.Read();
    assert log.history == [p1, p2, p3];
  }

}
