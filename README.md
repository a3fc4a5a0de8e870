# scribe: sources, combinators and the memoizing Node

This project models the core of scribe, a small Rust library for lazy evaluation and memoization:

- the `Source` producer abstraction: one `read(&mut self)` operation that may change the source's state;
- two combinators over it:
  - `map`: one inner read, then a transformer;
  - `parallel`: reads every source of a slice once, in slice order, and collects the values into a `Vec`;
- the memoizing `Node`: it reads its source on the first query, caches the value, and hands out the cached value from then on.

The model has three modules:

- `Wrappers` holds `Option`, the Node's cache, and `Result`, the value-or-error of a fallible source.
- `Source` holds:
  - `Producer`, a leaf source. Its k-th read yields `outputs(k)`, and `count` records how many reads have happened.
  - `Log`, a ghost history of reads that several sources may share. Every read appends the source read, so every contract of a reading member, from a single read to the loops `QueryRepeatedly` and `ReadMapRepeatedly`, also states which sources were read and in what order.
  - `ConstSource`, the constant source that queries hand back.
  - `MapSource` and `ParallelSource`.
  - `MapReads`, a pure model of n successive map reads, and `ReadMapRepeatedly`, a loop of `MapSource.Read` calls proved to follow it.
- `Node` holds:
  - the `Node` class, with its field `value: Option<T>` and its three query methods;
  - the pure one-query transition `QueryStep`;
  - its n-fold iteration `Queries`, and `QueryRepeatedly`, a loop of query calls in any mix of modes proved to follow it.

Each query method is proved to perform exactly the transition `QueryStep` describes, in its new cache, its new read count and the value it hands out. The lemma `QueriesReadAtMostOnce` proves the at-most-one-read property of `Queries`. `QueryRepeatedly` connects the two: any sequence of actual query calls, mixing the three modes, is proved to follow `Queries`.

A leaf source's values are given by its schedule `outputs: nat -> T`, and its effects by the entries it appends to its `Log`. A schedule describes a producer that returns something else on every read, such as a counting test double. It cannot describe a source whose value depends on state other sources change (see "## Left out"). Fallible producers, such as the file sources, instantiate `T` with a result type, as in `CacheOverReread`. Neither the combinators nor the Node treat such values specially.

## Model

| member | source | states |
|---|---|---|
| `Source.Producer.Read` | src/source.rs:3-5 | a read returns the source's next value, adds one read to that source's count, and appends that source to the shared log; nothing else changes |
| `Source.ConstSource.Read` | src/node.rs:23 | the constant source handed back by a query (`const_by_ref`, and likewise `const_by_copy` at line 34 and `const_by_clone` at line 54) yields its held value on every read |
| `Source.MapSource.constructor` | src/source.rs:18-29 | `map(source, f)` wraps exactly that source and transformer and reads nothing |
| `Source.MapSource.Read` | src/source.rs:12-16 | a read of the map source returns `f` applied to the result of exactly one read of the inner source, logged once, and changes no other state |
| `Source.ReadMapRepeatedly` | src/source.rs:13-15 | n successive reads of a map source are exactly what `MapReads` describes, so by `MapReadsAreInnerReads` they make n inner reads; the log gains the inner source n times |
| `Source.MapReadsAreInnerReads` | src/source.rs:13-15 | map caches nothing: n reads of the map source make exactly n inner reads, and the i-th value is `f` applied to the inner source's i-th next value |
| `Source.ParallelSource.constructor` | src/source.rs:44-51 | `parallel(sources)` wraps exactly that slice of pairwise distinct sources, which share one log, and the result is valid |
| `Source.ParallelSource.Read` | src/source.rs:35-42 | the result has one element per source, and element i is the value read from `sources[i]`, so order is preserved; every source is read exactly once, and the log gains exactly `sources`, in index order; no other object changes; an empty slice gives an empty result and no reads |
| `Source.ParallelInOrder` | src/source.rs:36-41 | over three sources the result is their three values in slice order; over an empty slice it is empty |
| `Node.QueryStep` | src/node.rs:17-56 | after any query the cache is filled and the value handed out is the cached one, so the `unreachable!()` arms cannot be reached; an empty cache costs exactly one read and caches its value; a filled cache costs no read and stays unchanged |
| `Node.QueriesReadAtMostOnce` | src/node.rs:17-56 | over any number n of queries the source is read once if the cache started empty and n > 0, and never otherwise; every query hands out the value of that single read (or the value already cached), and the value stays cached |
| `Node.Node.constructor` | src/node.rs:10-15 | `Node::new` stores the source, starts with an empty cache and does not read the source |
| `Node.Node.Query` | src/node.rs:17-25 | `query` makes exactly the `QueryStep` transition: on an empty cache, one logged read whose value is stored and handed out; on a filled cache, no read, nothing logged, and the cached value handed out unchanged |
| `Node.Node.QueryCopying` | src/node.rs:32-41 | `query_copying`, written as a `match` on the cache, makes the same `QueryStep` transition as `query` |
| `Node.Node.QueryCloning` | src/node.rs:48-56 | `query_cloning` makes the same `QueryStep` transition: the value handed out equals the cached one, and a filled cache is left unchanged |
| `Node.QueryRepeatedly` | src/node.rs:17-56 | any sequence of queries in any mix of the three modes follows `Queries`: the source is read at most once, and every query hands out the value of that one read (or the value already cached); the log gains the source once if the cache started empty and there was a query, and nothing otherwise |
| `Node.CacheOverReread` | src/node.rs:48-56 | a Node over a text source whose first read is `Ok("hello")` hands out `Ok("hello")` on both clones, while a direct second read of the source yields `Ok("")` |

## Left out

- Rust traits and `dyn Source` are not modelled, because this model uses no Dafny traits. Each combinator and `Node` therefore wraps a leaf `Producer`. A map over a map, a Node over a parallel source and other such nestings are not modelled. `MapReadsAreInnerReads` shows that a map source behaves like a leaf with the schedule `k => f(outputs(k))`.
- `Source.Producer.Read`: a leaf's value depends only on how often that leaf has been read. A Rust source may also act on state it shares with other sources, for example two file sources over one file. Then its value can depend on what the other sources did. That is not modelled; only the order of the reads, through the shared `Log`, is.
- `ConstSource`: `const_by_ref`, `const_by_copy` and `const_by_clone` (called at src/node.rs:23, 34 and 54) are defined nowhere in the crate. A `source::` path can only name an item of src/source.rs, and that file defines none of them and declares only the `file_source` submodule. That they yield the held value on every read is assumed from their names.
- The file sources in src/source/file_source.rs (`BinaryFileSource`, `TextFileSource`) are file I/O. Modelling them would mean modelling the filesystem. A `Producer` over a result type, with an arbitrary schedule, stands for them. `CacheOverReread` uses the schedule a `TextFileSource` has over a file holding "hello": `read_to_string` continues from the cursor of the handle opened once, so the second read yields `Ok("")`.
- src/main.rs is a demo built on third-party templating and Markdown libraries, and it prints. It is not part of this model.
- Lifetimes, borrowing and `impl Trait` return types are not modelled. Ownership becomes plain object references with `modifies` frames. The `&mut` slice's guarantee that no two entries alias becomes the `Distinct` precondition of `ParallelSource`.
- The unused type parameter `S` of `parallel` has no behaviour.
- Copy and Clone are not told apart: in Dafny all three query modes hand out a value. `query` hands out a reference into the cache, but the model hands out the value.
- Panics and side effects inside a `map` transformer are not modelled: the transformer is a total pure function.
