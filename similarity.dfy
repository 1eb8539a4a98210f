/**
 * Embedding vectors and their cosine similarity, as `recommend` and the
 * in-memory vector store compute them. A vector is a PHP array of numbers;
 * component `i` is read as `$v[$i]`, a missing one counting as 0.
 */
module Similarity {
  import opened Wrappers
  import opened Php
  import opened Foreign

  function Component(v: seq<Entry>, i: nat): real {
    match Get(v, IntKey(i))
    case Some(x) => FloatOf(x)
    case None => 0.0
  }

  /** The first `n` components as numbers. */
  function Components(v: seq<Entry>, n: nat): (r: seq<real>)
    ensures |r| == n
    ensures forall i :: 0 <= i < n ==> r[i] == Component(v, i)
  {
    seq(n, i requires 0 <= i < n => Component(v, i))
  }

  /** The dot product of the first `n` components. */
  function Dot(u: seq<real>, w: seq<real>, n: nat): real
    requires n <= |u| && n <= |w|
  {
    if n == 0 then 0.0 else Dot(u, w, n - 1) + u[n - 1] * w[n - 1]
  }

  /** The squared norm of the first `n` components. */
  function SumSquares(u: seq<real>, n: nat): real
    requires n <= |u|
  {
    if n == 0 then 0.0 else SumSquares(u, n - 1) + u[n - 1] * u[n - 1]
  }

  function Min(x: nat, y: nat): nat {
    if x <= y then x else y
  }

  /** `cosineSimilarity`: 0 when either norm is 0, else dot / (|a| |b|) over the common length. */
  function Cosine(x: Externals, a: seq<Entry>, b: seq<Entry>): real {
    var n := Min(|a|, |b|);
    var u, w := Components(a, n), Components(b, n);
    Score(x, Dot(u, w, n), SumSquares(u, n), SumSquares(w, n))
  }

  /** The score from the accumulated sums: 0 when either norm is 0. */
  function Score(x: Externals, dot: real, na: real, nb: real): real {
    if na == 0.0 || nb == 0.0 then 0.0 else dot / (x.sqrt(na) * x.sqrt(nb))
  }

  lemma DotStep(u: seq<real>, w: seq<real>, i: nat)
    requires i < |u| && i < |w|
    ensures Dot(u, w, i + 1) == Dot(u, w, i) + u[i] * w[i]
  {
  }

  lemma SumSquaresStep(u: seq<real>, i: nat)
    requires i < |u|
    ensures SumSquares(u, i + 1) == SumSquares(u, i) + u[i] * u[i]
  {
  }

  /** The accumulator loop of `cosineSimilarity`. */
  method CosineSimilarity(x: Externals, a: seq<Entry>, b: seq<Entry>) returns (score: real)
    ensures score == Cosine(x, a, b)
  {
    var dot, normA, normB := 0.0, 0.0, 0.0;
    var length := Min(|a|, |b|);
    var u, w := Components(a, length), Components(b, length);
    for i := 0 to length
      invariant dot == Dot(u, w, i)
      invariant normA == SumSquares(u, i) && normB == SumSquares(w, i)
    {
      DotStep(u, w, i);
      SumSquaresStep(u, i);
      SumSquaresStep(w, i);
      dot := dot + u[i] * w[i];
      normA := normA + u[i] * u[i];
      normB := normB + w[i] * w[i];
    }
    if normA == 0.0 || normB == 0.0 {
      return 0.0;
    }
    return Score(x, dot, normA, normB);
  }

  /** The squared norm of a vector whose counted components are all zero is zero. */
  lemma {:induction false} SumSquaresZero(u: seq<real>, n: nat)
    requires n <= |u|
    requires forall i :: 0 <= i < n ==> u[i] == 0.0
    ensures SumSquares(u, n) == 0.0
  {
    if n > 0 {
      SumSquaresZero(u, n - 1);
    }
  }

  /** A vector whose counted components are all zero scores 0 against anything. */
  lemma ZeroVectorScoresZero(x: Externals, a: seq<Entry>, b: seq<Entry>)
    requires forall i :: 0 <= i < Min(|a|, |b|) ==> Component(a, i) == 0.0
    ensures Cosine(x, a, b) == 0.0 && Cosine(x, b, a) == 0.0
  {
    var n := Min(|a|, |b|);
    SumSquaresZero(Components(a, n), n);
    assert Min(|b|, |a|) == n;
  }

  lemma {:induction false} DotSymmetric(u: seq<real>, w: seq<real>, n: nat)
    requires n <= |u| && n <= |w|
    ensures Dot(u, w, n) == Dot(w, u, n)
  {
    if n > 0 {
      DotSymmetric(u, w, n - 1);
      assert u[n - 1] * w[n - 1] == w[n - 1] * u[n - 1];
    }
  }

  /** The score does not depend on the order of the two vectors. */
  lemma CosineSymmetric(x: Externals, a: seq<Entry>, b: seq<Entry>)
    ensures Cosine(x, a, b) == Cosine(x, b, a)
  {
    var n := Min(|a|, |b|);
    assert Min(|b|, |a|) == n;
    var u, w := Components(a, n), Components(b, n);
    DotSymmetric(u, w, n);
    var na, nb := SumSquares(u, n), SumSquares(w, n);
    if na != 0.0 && nb != 0.0 {
      assert x.sqrt(na) * x.sqrt(nb) == x.sqrt(nb) * x.sqrt(na);
    }
  }

  /** Only the first min(|a|, |b|) components take part. */
  lemma CosineCommonLength(x: Externals, a: seq<Entry>, b: seq<Entry>, a': seq<Entry>, b': seq<Entry>)
    requires Min(|a|, |b|) == Min(|a'|, |b'|)
    requires forall i :: 0 <= i < Min(|a|, |b|) ==> Component(a, i) == Component(a', i) && Component(b, i) == Component(b', i)
    ensures Cosine(x, a, b) == Cosine(x, a', b')
  {
    var n := Min(|a|, |b|);
    assert Components(a, n) == Components(a', n);
    assert Components(b, n) == Components(b', n);
  }

  /* ---------------------------------------------------- normalizeEmbeddings */

  /** `array_map('floatval', $v)`: the same keys, every value a float. */
  function Floats(v: seq<Entry>): (r: seq<Entry>)
    ensures |r| == |v|
    ensures forall i :: 0 <= i < |v| ==> r[i] == Entry(v[i].key, Float(FloatOf(v[i].val)))
  {
    seq(|v|, i requires 0 <= i < |v| => Entry(v[i].key, Float(FloatOf(v[i].val))))
  }

  /** The vector one embedding item yields: its `embedding` field when it has one, else itself. */
  function VectorOf(item: Value): Option<seq<Entry>> {
    match item
    case Arr(es) =>
      if Has(es, StrKey("embedding")) then Some(Floats(ToArray(Get(es, StrKey("embedding")).value)))
      else Some(Floats(es))
    case _ => None
  }

  /** The vectors of the first entries, keyed by their original index. */
  function Normalized(embeddings: seq<Entry>): seq<Entry> {
    if embeddings == [] then []
    else
      var last := embeddings[|embeddings| - 1];
      var vs := Normalized(embeddings[..|embeddings| - 1]);
      match VectorOf(last.val)
      case Some(v) => Set(vs, last.key, Arr(v))
      case None => vs
  }

  predicate DistinctKeys(a: seq<Entry>) {
    forall i, j :: 0 <= i < j < |a| ==> a[i].key != a[j].key
  }

  /**
   * Every array item keeps its index and becomes a float vector; every other
   * item is dropped.
   */
  lemma {:induction false} NormalizedSpec(embeddings: seq<Entry>, k: Key)
    requires DistinctKeys(embeddings)
    ensures Get(Normalized(embeddings), k) ==
      match Get(embeddings, k)
      case Some(item) => (match VectorOf(item) case Some(v) => Some(Arr(v)) case None => None)
      case None => None
  {
    if embeddings != [] {
      var init := embeddings[..|embeddings| - 1];
      var last := embeddings[|embeddings| - 1];
      NormalizedSpec(init, k);
      GetSnoc(init, last, k);
      FrontLast(embeddings);
      if last.key == k {
        assert Get(init, k).None?;
      }
    }
  }

  /** Reading a key of an array with one more entry at the end. */
  lemma {:induction false} GetSnoc(a: seq<Entry>, e: Entry, k: Key)
    ensures Get(a + [e], k) == if Get(a, k).Some? then Get(a, k) else if e.key == k then Some(e.val) else None
  {
    if a != [] && a[0].key != k {
      assert (a + [e])[1..] == a[1..] + [e];
      GetSnoc(a[1..], e, k);
    }
  }

  /** The loop of `normalizeEmbeddings`. */
  method NormalizeEmbeddings(embeddings: seq<Entry>) returns (vectors: seq<Entry>)
    ensures vectors == Normalized(embeddings)
  {
    vectors := [];
    for i := 0 to |embeddings|
      invariant vectors == Normalized(embeddings[..i])
    {
      assert embeddings[..i + 1][..i] == embeddings[..i];
      var item := embeddings[i].val;
      if item.Arr? && Has(item.entries, StrKey("embedding")) {
        vectors := Set(vectors, embeddings[i].key, Arr(Floats(ToArray(Get(item.entries, StrKey("embedding")).value))));
      } else if item.Arr? {
        vectors := Set(vectors, embeddings[i].key, Arr(Floats(item.entries)));
      }
    }
    assert embeddings[..|embeddings|] == embeddings;
  }
}
