/**
 * The in-memory vector store: an id-keyed PHP array of items, each an array
 * with an `id`, an `embedding` and optional `metadata`, queried by cosine
 * similarity for the top K items.
 */
module VectorStore {
  import opened Wrappers
  import opened Php
  import opened Foreign
  import opened Ranking
  import opened Similarity

  /** `isset($item['id'], $item['embedding'])`: both present and not null. */
  predicate Storable(item: Value) {
    item.Arr? && Coalesce(item.entries, StrKey("id"), Null) != Null
    && Coalesce(item.entries, StrKey("embedding"), Null) != Null
  }

  /** `$item['id']`. */
  function IdOf(item: Value): Value {
    if item.Arr? then Coalesce(item.entries, StrKey("id"), Null) else Null
  }

  /** One step of `upsert`: skip, store by id, or fail on an id that is not a legal key. */
  function UpsertOne(items: seq<Entry>, item: Value): (r: Result<seq<Entry>, Throwable>)
    ensures !Storable(item) ==> r == Success(items)
    ensures Storable(item) && AsOffset(IdOf(item)).None? ==> r == Failure(TypeError("Illegal offset type"))
    ensures Storable(item) && AsOffset(IdOf(item)).Some? ==>
      var k := AsOffset(IdOf(item)).value;
      && r.Success?
      && Get(r.value, k) == Some(item)
      && (forall j :: j != k ==> Get(r.value, j) == Get(items, j))
      && (Has(items, k) ==> KeysInOrder(r.value) == KeysInOrder(items))
      && (!Has(items, k) ==> r.value == items + [Entry(k, item)])
  {
    if !Storable(item) then Success(items)
    else
      match AsOffset(IdOf(item))
      case None => Failure(TypeError("Illegal offset type"))
      case Some(k) =>
        SetShape(items, k, item);
        Success(Set(items, k, item))
  }

  /** `upsert($batch)`: the items after the loop, and the exception that stopped it, if any. */
  function UpsertAll(items: seq<Entry>, batch: seq<Value>): (r: (seq<Entry>, Outcome<Throwable>))
    ensures r.1.Fail? ==> r.1.error == TypeError("Illegal offset type")
    ensures (forall i :: 0 <= i < |batch| ==> !Storable(batch[i])) ==> r == (items, Pass)
    decreases |batch|
  {
    if batch == [] then (items, Pass)
    else
      match UpsertOne(items, batch[0])
      case Failure(e) => (items, Fail(e))
      case Success(next) => UpsertAll(next, batch[1..])
  }

  /** Every stored item is an array with a non-null id and embedding. */
  predicate AllStorable(items: seq<Entry>) {
    forall i :: 0 <= i < |items| ==> Storable(items[i].val)
  }

  /** Some storable item of the batch has an id denoting key `k`. */
  predicate Targets(batch: seq<Value>, k: Key) {
    exists i :: 0 <= i < |batch| && Storable(batch[i]) && AsOffset(IdOf(batch[i])) == Some(k)
  }

  /** Upserting keeps every stored item storable. */
  lemma {:induction false} UpsertAllStorable(items: seq<Entry>, batch: seq<Value>)
    requires AllStorable(items)
    ensures AllStorable(UpsertAll(items, batch).0)
    decreases |batch|
  {
    if batch != [] {
      match UpsertOne(items, batch[0])
      case Failure(_) =>
      case Success(next) =>
        if Storable(batch[0]) {
          var k := AsOffset(IdOf(batch[0])).value;
          SetAllStorable(items, k, batch[0]);
        }
        UpsertAllStorable(next, batch[1..]);
    }
  }

  lemma {:induction false} SetAllStorable(items: seq<Entry>, k: Key, item: Value)
    requires AllStorable(items) && Storable(item)
    ensures AllStorable(Set(items, k, item))
  {
    if items != [] && items[0].key != k {
      SetAllStorable(items[1..], k, item);
    }
  }

  /** Keys no storable item of the batch names keep their old value. */
  lemma {:induction false} UpsertAllUntouched(items: seq<Entry>, batch: seq<Value>, k: Key)
    requires !Targets(batch, k)
    ensures Get(UpsertAll(items, batch).0, k) == Get(items, k)
    decreases |batch|
  {
    if batch != [] {
      assert !Targets(batch[1..], k);
      match UpsertOne(items, batch[0])
      case Failure(_) =>
      case Success(next) =>
        UpsertAllUntouched(next, batch[1..], k);
    }
  }

  /** Every item of the batch is storable under a string id. */
  predicate StringIds(batch: seq<Value>) {
    forall i :: 0 <= i < |batch| ==> Storable(batch[i]) && IdOf(batch[i]).Str?
  }

  /** Upserting keeps every key that was present. */
  lemma {:induction false} UpsertAllKeeps(items: seq<Entry>, batch: seq<Value>, k: Key)
    requires Has(items, k)
    ensures Has(UpsertAll(items, batch).0, k)
    decreases |batch|
  {
    if batch != [] {
      match UpsertOne(items, batch[0])
      case Failure(_) =>
      case Success(next) =>
        UpsertAllKeeps(next, batch[1..], k);
    }
  }

  /** A batch of storable items with string ids never fails, and stores every one of their ids. */
  lemma {:induction false} UpsertAllStrings(items: seq<Entry>, batch: seq<Value>)
    requires StringIds(batch)
    ensures UpsertAll(items, batch).1 == Pass
    ensures forall i :: 0 <= i < |batch| ==> Has(UpsertAll(items, batch).0, StrKey(IdOf(batch[i]).s))
    decreases |batch|
  {
    if batch != [] {
      var k := StrKey(IdOf(batch[0]).s);
      var next := Set(items, k, batch[0]);
      assert UpsertOne(items, batch[0]) == Success(next);
      assert StringIds(batch[1..]) by {
        forall i | 0 <= i < |batch[1..]|
          ensures Storable(batch[1..][i]) && IdOf(batch[1..][i]).Str?
        {
          assert batch[1..][i] == batch[i + 1];
        }
      }
      UpsertAllStrings(next, batch[1..]);
      var after := UpsertAll(items, batch).0;
      assert after == UpsertAll(next, batch[1..]).0;
      UpsertAllKeeps(next, batch[1..], k);
      forall i | 0 <= i < |batch|
        ensures Has(after, StrKey(IdOf(batch[i]).s))
      {
        if i > 0 {
          assert batch[i] == batch[1..][i - 1];
        }
      }
    }
  }

  /* ------------------------------------------------------------------ query */

  /** One result row of `query`: `['id' => …, 'score' => …, 'metadata' => …]`. */
  datatype Hit = Hit(id: Value, score: real, metadata: Value)

  /** The row a stored item yields, when its `embedding` is an array. */
  function HitOf(x: Externals, item: Value, vector: seq<Entry>): Option<Hit> {
    var embedding := if item.Arr? then Coalesce(item.entries, StrKey("embedding"), Null) else Null;
    if !embedding.Arr? then None
    else
      Some(Hit(IdOf(item), Cosine(x, vector, embedding.entries),
               if item.Arr? then Coalesce(item.entries, StrKey("metadata"), Arr([])) else Arr([])))
  }

  /** The rows of the items with an array embedding, in storage order. */
  function Hits(x: Externals, items: seq<Entry>, vector: seq<Entry>): (r: seq<Hit>)
    ensures |r| <= |items|
    ensures forall h :: h in r ==> exists i :: 0 <= i < |items| && HitOf(x, items[i].val, vector) == Some(h)
  {
    if items == [] then []
    else
      var init := items[..|items| - 1];
      var rest := Hits(x, init, vector);
      assert forall i :: 0 <= i < |init| ==> init[i] == items[i];
      match HitOf(x, items[|items| - 1].val, vector)
      case Some(h) => rest + [h]
      case None => rest
  }

  /** How many stored items have an array embedding. */
  function Embedded(items: seq<Entry>): nat {
    if items == [] then 0
    else
      Embedded(items[..|items| - 1])
      + (var v := items[|items| - 1].val;
         if v.Arr? && Coalesce(v.entries, StrKey("embedding"), Null).Arr? then 1 else 0)
  }

  lemma {:induction false} HitsCount(x: Externals, items: seq<Entry>, vector: seq<Entry>)
    ensures |Hits(x, items, vector)| == Embedded(items)
  {
    if items != [] {
      HitsCount(x, items[..|items| - 1], vector);
    }
  }

  /** `$b['score'] <=> $a['score']`: descending score is ascending negated score. */
  function Descending(h: Hit): real {
    -h.score
  }

  /** `array_slice($s, 0, $length)`: a negative length drops that many from the end. */
  function Slice<T>(s: seq<T>, length: int): (r: seq<T>)
    ensures r <= s
    ensures length >= 0 ==> |r| == (if length <= |s| then length else |s|)
    ensures length < 0 ==> |r| == (if |s| + length > 0 then |s| + length else 0)
  {
    if length >= 0 then (if length <= |s| then s[..length] else s)
    else if |s| + length > 0 then s[..|s| + length]
    else []
  }

  /** What `query($vector, $topK)` returns for the stored items. */
  function QueryResult(x: Externals, items: seq<Entry>, vector: seq<Entry>, topK: int): (r: seq<Hit>)
    ensures r <= SortBy(Hits(x, items, vector), Descending)
    ensures topK >= 0 ==> |r| <= topK
  {
    Slice(SortBy(Hits(x, items, vector), Descending), topK)
  }

  /** For a non-negative K the result has min(K, #items with an array embedding) rows. */
  lemma QueryCount(x: Externals, items: seq<Entry>, vector: seq<Entry>, topK: int)
    requires topK >= 0
    ensures |QueryResult(x, items, vector, topK)| == if topK <= Embedded(items) then topK else Embedded(items)
  {
    HitsCount(x, items, vector);
  }

  /** Rows come in descending score order. */
  lemma QueryDescending(x: Externals, items: seq<Entry>, vector: seq<Entry>, topK: int)
    ensures var r := QueryResult(x, items, vector, topK);
      forall i, j :: 0 <= i < j < |r| ==> r[i].score >= r[j].score
  {
    var ranked := SortBy(Hits(x, items, vector), Descending);
    var r := QueryResult(x, items, vector, topK);
    forall i, j | 0 <= i < j < |r|
      ensures r[i].score >= r[j].score
    {
      assert r[i] == ranked[i] && r[j] == ranked[j];
      assert Descending(ranked[i]) <= Descending(ranked[j]);
    }
  }

  /**
   * The result is the top K: the rows left out are the rest of the hits,
   * and none of them scores above a row that was returned.
   */
  lemma QueryTopK(x: Externals, items: seq<Entry>, vector: seq<Entry>, topK: int)
    ensures var hits := Hits(x, items, vector);
      var r := QueryResult(x, items, vector, topK);
      var left := SortBy(hits, Descending)[|r|..];
      && multiset(r) + multiset(left) == multiset(hits)
      && forall i, j :: 0 <= i < |r| && 0 <= j < |left| ==> r[i].score >= left[j].score
  {
    var hits := Hits(x, items, vector);
    var ranked := SortBy(hits, Descending);
    var r := QueryResult(x, items, vector, topK);
    var left := ranked[|r|..];
    assert ranked == r + left;
    forall i, j | 0 <= i < |r| && 0 <= j < |left|
      ensures r[i].score >= left[j].score
    {
      assert r[i] == ranked[i] && left[j] == ranked[|r| + j];
      assert Descending(ranked[i]) <= Descending(ranked[|r| + j]);
    }
  }

  /** The rows of score exactly `score`, in order. */
  function WithScore(hits: seq<Hit>, score: real): (r: seq<Hit>)
    ensures forall h :: h in r ==> h in hits && h.score == score
  {
    if hits == [] then []
    else (if hits[0].score == score then [hits[0]] else []) + WithScore(hits[1..], score)
  }

  lemma {:induction false} WithScoreRank(hits: seq<Hit>, score: real)
    ensures WithScore(hits, score) == WithRank(hits, Descending, -score)
  {
    if hits != [] {
      WithScoreRank(hits[1..], score);
    }
  }

  /**
   * Ties keep storage order: the rows of any one score, before the cut at K,
   * are exactly the rows of that score in the order the items are stored.
   */
  lemma QueryStable(hits: seq<Hit>, score: real)
    ensures WithScore(SortBy(hits, Descending), score) == WithScore(hits, score)
  {
    calc {
      WithScore(SortBy(hits, Descending), score);
      == { WithScoreRank(SortBy(hits, Descending), score); }
      WithRank(SortBy(hits, Descending), Descending, -score);
      == { SortByStable(hits, Descending, -score); }
      WithRank(hits, Descending, -score);
      == { WithScoreRank(hits, score); }
      WithScore(hits, score);
    }
  }

  /** Every row carries the id and metadata of a stored item with an array embedding. */
  lemma QueryRowsFromItems(x: Externals, items: seq<Entry>, vector: seq<Entry>, topK: int, h: Hit)
    requires h in QueryResult(x, items, vector, topK)
    ensures exists i :: 0 <= i < |items| && ItemYields(x, items[i].val, vector, h)
  {
    var hits := Hits(x, items, vector);
    var ranked := SortBy(hits, Descending);
    assert h in ranked;
    assert h in multiset(ranked);
    assert h in hits;
  }

  /** `h` is the row of `item`: its id, its metadata and its embedding's score. */
  predicate ItemYields(x: Externals, item: Value, vector: seq<Entry>, h: Hit) {
    && item.Arr?
    && var embedding := Coalesce(item.entries, StrKey("embedding"), Null);
    && embedding.Arr?
    && h.id == Coalesce(item.entries, StrKey("id"), Null)
    && h.metadata == Coalesce(item.entries, StrKey("metadata"), Arr([]))
    && h.score == Cosine(x, vector, embedding.entries)
  }

  /** A K of zero returns no rows. */
  lemma QueryZero(x: Externals, items: seq<Entry>, vector: seq<Entry>)
    ensures QueryResult(x, items, vector, 0) == []
  {
  }

  class InMemoryVectorStore {
    var items: seq<Entry>

    constructor()
      ensures items == []
    {
      items := [];
    }

    /** `upsert($batch)`: the exception an illegal id raises stops the loop with the earlier items stored. */
    method Upsert(batch: seq<Value>) returns (r: Outcome<Throwable>)
      modifies this
      ensures (items, r) == UpsertAll(old(items), batch)
    {
      for i := 0 to |batch|
        invariant UpsertAll(old(items), batch) == UpsertAll(items, batch[i..])
      {
        assert batch[i..][1..] == batch[i + 1..];
        var item := batch[i];
        if !Storable(item) {
          continue;
        }
        match AsOffset(IdOf(item))
        case None =>
          return Fail(TypeError("Illegal offset type"));
        case Some(k) =>
          items := Set(items, k, item);
      }
      assert batch[|batch|..] == [];
      return Pass;
    }

    /** `query($vector, $topK)`; the stored items are not changed. */
    method Query(x: Externals, vector: seq<Entry>, topK: int) returns (results: seq<Hit>)
      ensures results == QueryResult(x, items, vector, topK)
    {
      var hits: seq<Hit> := [];
      for i := 0 to |items|
        invariant hits == Hits(x, items[..i], vector)
      {
        assert items[..i + 1][..i] == items[..i];
        var item := items[i].val;
        var embedding := if item.Arr? then Coalesce(item.entries, StrKey("embedding"), Null) else Null;
        if !embedding.Arr? {
          continue;
        }
        var score := CosineSimilarity(x, vector, embedding.entries);
        var metadata := if item.Arr? then Coalesce(item.entries, StrKey("metadata"), Arr([])) else Arr([]);
        hits := hits + [Hit(IdOf(item), score, metadata)];
      }
      assert items[..|items|] == items;
      results := Slice(SortBy(hits, Descending), topK);
    }
  }
}
