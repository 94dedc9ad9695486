/**
 * The retriever (backend/services/retriever.py): a process-wide cache from a
 * content hash of the resume text to the index built over its chunks, and a
 * top-k search that maps the index's answer back to chunk texts.
 *
 * `hash_text` (an MD5 hex digest) is kept abstract: the cache is given the hash
 * function when it is created, so equal texts always give equal keys.
 */
module Retriever {
  import opened Wrappers
  import opened FlatL2

  /** A hex digest produced by `hash_text`. */
  type Key = string

  type Index = i: FlatIndex | i.WellFormed() witness FlatIndex(0, [])

  /** What `_INDEX_CACHE` holds under a key: the tuple `(index, chunks)`. */
  datatype Entry = Entry(index: Index, chunks: seq<string>)

  /** `KeyError` from the dictionary, faiss's dimension assertion, `IndexError` from `chunks[i]`. */
  datatype SearchError = KeyError | DimensionMismatch | IndexError

  /**
   * Python's `xs[i]`: an index in [-|xs|, |xs|) gives an element, a negative
   * one counting from the end, so -1 is the last; anything else fails.
   */
  function PyIndex(xs: seq<string>, i: int): (r: Option<string>)
    ensures r.Some? <==> -|xs| <= i < |xs|
    ensures r.Some? ==> r.value in xs
    ensures i == -1 && |xs| > 0 ==> r == Some(xs[|xs| - 1])
  {
    if 0 <= i < |xs| then Some(xs[i])
    else if -|xs| <= i < 0 then Some(xs[|xs| + i])
    else None
  }

  /**
   * `[chunks[i] for i in labels]`: it succeeds exactly when every label is a
   * valid Python index of `chunks`, giving one chunk per label, and otherwise
   * fails with `IndexError`.
   */
  function Project(chunks: seq<string>, labels: seq<int>): (r: Result<seq<string>, SearchError>)
    ensures r.Success? <==> forall j :: 0 <= j < |labels| ==> -|chunks| <= labels[j] < |chunks|
    ensures r.Failure? ==> r.error == IndexError
    ensures r.Success? ==> |r.value| == |labels| && forall j :: 0 <= j < |labels| ==> r.value[j] in chunks
  {
    if forall j :: 0 <= j < |labels| ==> PyIndex(chunks, labels[j]).Some? then
      Success(seq(|labels|, j requires 0 <= j < |labels| => PyIndex(chunks, labels[j]).value))
    else
      Failure(IndexError)
  }

  /** `search(query_vec, key, k)` over the cache contents `cache`. */
  function SearchIn(cache: map<Key, Entry>, query: Vector, key: Option<Key>, k: nat): (r: Result<seq<string>, SearchError>)
    requires 0 < k
    ensures key.None? || key.value !in cache ==> r == Failure(KeyError)
    ensures r.Success? ==> |r.value| == k
  {
    if key.None? || key.value !in cache then Failure(KeyError)
    else
      var e := cache[key.value];
      if |query| != e.index.dim then Failure(DimensionMismatch)
      else Project(e.chunks, SearchLabels(e.index, query, k))
  }

  /** `_INDEX_CACHE` with the functions that read and write it. */
  class IndexCache {
    const hashText: string -> Key
    var entries: map<Key, Entry>

    /** The module is imported: the cache starts empty. */
    constructor (hashText: string -> Key)
      ensures this.hashText == hashText && entries == map[]
    {
      this.hashText := hashText;
      entries := map[];
    }

    /**
     * `create_index` as written: a cached key is returned as is; for a new key
     * the index is built and saved to disk, but nothing is put in the cache and
     * the function falls off its end, returning `None`.
     */
    method CreateIndexAsWritten(vectors: seq<Vector>, dim: nat, chunks: seq<string>, resumeText: string)
      returns (key: Option<Key>)
      requires forall i :: 0 <= i < |vectors| ==> |vectors[i]| == dim
      ensures key.Some? <==> hashText(resumeText) in entries
      ensures key.Some? ==> key.value == hashText(resumeText)
    {
      var h := hashText(resumeText);
      if h in entries {
        return Some(h);
      }
      var index: Index := FlatIndex(dim, vectors);
      return None;
    }

    /**
     * `create_index` as evidently intended: a cached key is returned with the
     * cache untouched; a new key gets the index over `vectors` and the chunks.
     */
    method CreateIndex(vectors: seq<Vector>, dim: nat, chunks: seq<string>, resumeText: string)
      returns (key: Key)
      requires forall i :: 0 <= i < |vectors| ==> |vectors[i]| == dim
      modifies this
      ensures key == hashText(resumeText)
      ensures key in old(entries) ==> entries == old(entries)
      ensures key !in old(entries) ==> entries == old(entries)[key := Entry(FlatIndex(dim, vectors), chunks)]
    {
      key := hashText(resumeText);
      if key in entries {
        return;
      }
      var index: Index := FlatIndex(dim, vectors);
      entries := entries[key := Entry(index, chunks)];
    }

    /** `search(query_vec, key, k)`. */
    function Search(query: Vector, key: Option<Key>, k: nat): (r: Result<seq<string>, SearchError>)
      reads this
      requires 0 < k
      ensures key.None? || key.value !in entries ==> r == Failure(KeyError)
      ensures r.Success? ==> |r.value| == k
    {
      SearchIn(entries, query, key, k)
    }
  }

  // ---------------------------------------------------------------------------
  // What a search returns

  /** Enough stored vectors: the k chunks whose vectors are nearest, nearest first. */
  lemma {:induction false} SearchReturnsNearest(cache: map<Key, Entry>, query: Vector, key: Key, k: nat)
    requires 0 < k && key in cache
    requires |query| == cache[key].index.dim
    requires k <= |cache[key].index.vectors| == |cache[key].chunks|
    ensures var e := cache[key];
      var near := Nearest(Distances(e.index, query), k);
      && |near| == k
      && SearchIn(cache, query, Some(key), k) == Success(seq(k, a requires 0 <= a < k => e.chunks[near[a]]))
      && (forall a, b :: 0 <= a < b < k ==>
            SqDist(e.index.vectors[near[a]], query) <= SqDist(e.index.vectors[near[b]], query))
      && (forall a, j :: 0 <= a < k && 0 <= j < |e.index.vectors| && j !in near ==>
            SqDist(e.index.vectors[near[a]], query) <= SqDist(e.index.vectors[j], query))
  {
    var e := cache[key];
    var near := Nearest(Distances(e.index, query), k);
    NearestByDistance(e.index, query, k);
    var labels := SearchLabels(e.index, query, k);
    assert labels == near;
    assert forall j :: 0 <= j < k ==> PyIndex(e.chunks, labels[j]) == Some(e.chunks[near[j]]);
    var expected := seq(k, a requires 0 <= a < k => e.chunks[near[a]]);
    assert Project(e.chunks, labels).value == expected;
  }

  /**
   * Fewer stored vectors than k: faiss pads the labels with -1 and `chunks[-1]`
   * is the last chunk, so the answer is every chunk, nearest first, followed by
   * copies of the last chunk.
   */
  lemma {:induction false} SearchPadsWithLastChunk(cache: map<Key, Entry>, query: Vector, key: Key, k: nat)
    requires 0 < k && key in cache
    requires |query| == cache[key].index.dim
    requires 0 < |cache[key].index.vectors| == |cache[key].chunks| < k
    ensures var e := cache[key];
      var n := |e.chunks|;
      var near := Nearest(Distances(e.index, query), k);
      && |near| == n
      && SearchIn(cache, query, Some(key), k).Success?
      && (forall a :: 0 <= a < n ==> SearchIn(cache, query, Some(key), k).value[a] == e.chunks[near[a]])
      && (forall a :: n <= a < k ==> SearchIn(cache, query, Some(key), k).value[a] == e.chunks[n - 1])
  {
    var e := cache[key];
    var near := Nearest(Distances(e.index, query), k);
    NearestIsTopK(Distances(e.index, query), k);
    var labels := SearchLabels(e.index, query, k);
    assert labels[..|near|] == near;
    assert forall j :: |near| <= j < k ==> labels[j] == -1;
    assert forall j :: 0 <= j < k ==> -|e.chunks| <= labels[j] < |e.chunks|;
    var r := Project(e.chunks, labels);
    assert r.Success?;
    assert forall a :: 0 <= a < |near| ==> r.value[a] == PyIndex(e.chunks, near[a]).value;
    assert forall a :: |near| <= a < k ==> r.value[a] == PyIndex(e.chunks, -1).value;
  }

  /** An index over no vectors answers only -1, and `chunks[-1]` on no chunks fails. */
  lemma {:induction false} SearchEmptyIndexFails(cache: map<Key, Entry>, query: Vector, key: Key, k: nat)
    requires 0 < k && key in cache
    requires |query| == cache[key].index.dim
    requires |cache[key].index.vectors| == 0 == |cache[key].chunks|
    ensures SearchIn(cache, query, Some(key), k) == Failure(IndexError)
  {
    var e := cache[key];
    NearestIsTopK(Distances(e.index, query), k);
    assert SearchLabels(e.index, query, k)[0] == -1;
  }

  /** A query whose dimension differs from the index's is refused. */
  lemma SearchDimensionMismatch(cache: map<Key, Entry>, query: Vector, key: Key, k: nat)
    requires 0 < k && key in cache
    requires |query| != cache[key].index.dim
    ensures SearchIn(cache, query, Some(key), k) == Failure(DimensionMismatch)
  {}

  // ---------------------------------------------------------------------------
  // Building twice, and the cache as written

  /** Building the index twice for the same text leaves the same cache as building it once. */
  method BuildTwiceIsBuildOnce(hashText: string -> Key, vectors: seq<Vector>, dim: nat, chunks: seq<string>,
                               otherVectors: seq<Vector>, otherChunks: seq<string>, resumeText: string)
    returns (once: map<Key, Entry>, twice: map<Key, Entry>)
    requires forall i :: 0 <= i < |vectors| ==> |vectors[i]| == dim
    requires forall i :: 0 <= i < |otherVectors| ==> |otherVectors[i]| == dim
    ensures once == twice
    ensures once == map[hashText(resumeText) := Entry(FlatIndex(dim, vectors), chunks)]
  {
    var a := new IndexCache(hashText);
    var ka := a.CreateIndex(vectors, dim, chunks, resumeText);
    once := a.entries;
    var b := new IndexCache(hashText);
    var kb := b.CreateIndex(vectors, dim, chunks, resumeText);
    kb := b.CreateIndex(otherVectors, dim, otherChunks, resumeText);
    twice := b.entries;
  }

  /**
   * With `create_index` as written the cache never gains an entry, so the key
   * it hands back on a first request is `None` and the search that follows
   * fails at the dictionary lookup.
   */
  method FirstSearchFailsAsWritten(hashText: string -> Key, vectors: seq<Vector>, dim: nat, chunks: seq<string>,
                                   resumeText: string, query: Vector, k: nat)
    returns (key: Option<Key>, r: Result<seq<string>, SearchError>)
    requires 0 < k
    requires forall i :: 0 <= i < |vectors| ==> |vectors[i]| == dim
    ensures key == None
    ensures r == Failure(KeyError)
  {
    var cache := new IndexCache(hashText);
    key := cache.CreateIndexAsWritten(vectors, dim, chunks, resumeText);
    r := cache.Search(query, key, k);
  }
}
