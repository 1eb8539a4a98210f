/**
 * Retrieval-augmented generation helpers: splitting a text into windows,
 * indexing the windows' embeddings into a vector store, and searching it.
 * Lengths are counted in characters, one per byte of the text.
 */
module Rag {
  import opened Wrappers
  import opened Php
  import opened PhpStrings
  import opened Foreign
  import opened Similarity
  import opened VectorStore

  /* ------------------------------------------------------------------ chunk */

  /** `substr($t, $start, $length)` for an offset inside the text (PHP 8: never false). */
  function Substr(t: string, start: nat, length: int): string
    requires start <= |t|
  {
    if length >= 0 then t[start..if start + length <= |t| then start + length else |t|]
    else if |t| + length > start then t[start..|t| + length]
    else ""
  }

  /** `$end = min($length, $start + $maxChars)`. */
  function End(length: nat, start: nat, maxChars: int): int {
    if length <= start + maxChars then length else start + maxChars
  }

  /** `$start = $end - $overlap`, clamped at 0. */
  function Next(length: nat, start: nat, maxChars: int, overlap: int): nat {
    var s := End(length, start, maxChars) - overlap;
    if s < 0 then 0 else s
  }

  /** The window at `start`, trimmed. */
  function Window(t: string, start: nat, maxChars: int): string
    requires start < |t|
  {
    Trim(Substr(t, start, End(|t|, start, maxChars) - start))
  }

  /** The settings under which the loop of `chunk` reaches the end of the text. */
  predicate Progresses(maxChars: int, overlap: int) {
    overlap <= 0 && maxChars > overlap
  }

  /** The chunks the loop appends from `start` on. */
  function ChunksFrom(t: string, maxChars: int, overlap: int, start: nat): (r: seq<string>)
    requires Progresses(maxChars, overlap)
    ensures forall i :: 0 <= i < |r| ==> r[i] != ""
    decreases |t| - start
  {
    if start >= |t| then []
    else
      var c := Window(t, start, maxChars);
      (if c != "" then [c] else []) + ChunksFrom(t, maxChars, overlap, Next(|t|, start, maxChars, overlap))
  }

  /** `chunk($text, $maxChars, $overlap)`, where it terminates. */
  function Chunks(text: string, maxChars: int, overlap: int): (r: seq<string>)
    requires Trim(text) != "" ==> Progresses(maxChars, overlap)
    ensures forall i :: 0 <= i < |r| ==> r[i] != ""
    ensures Trim(text) == "" ==> r == []
  {
    var t := Trim(text);
    if t == "" then [] else ChunksFrom(t, maxChars, overlap, 0)
  }

  /**
   * Outside `Progresses` the loop never ends on a non-empty text: from any
   * start inside the text the next start is inside it again. With a positive
   * overlap (the defaults are 1000 and 100) the window that reaches the end
   * of the text sends the start back to `length - overlap`.
   */
  lemma ChunkNeverEnds(t: string, maxChars: int, overlap: int, start: nat)
    requires !Progresses(maxChars, overlap)
    requires start < |t|
    ensures Next(|t|, start, maxChars, overlap) < |t|
  {
  }

  /** The defaults: a one-character text already loops at start 0 forever. */
  lemma DefaultsNeverEnd()
    ensures !Progresses(1000, 100)
    ensures Next(|"a"|, 0, 1000, 100) == 0
    ensures Window("a", 0, 1000) == "a"
  {
  }

  /** A window is trimmed, and no longer than `maxChars` when that is positive. */
  lemma WindowShape(t: string, start: nat, maxChars: int)
    requires start < |t|
    ensures Trim(Window(t, start, maxChars)) == Window(t, start, maxChars)
    ensures maxChars > 0 ==> |Window(t, start, maxChars)| <= maxChars
  {
    var raw := Substr(t, start, End(|t|, start, maxChars) - start);
    if maxChars > 0 {
      var end := End(|t|, start, maxChars);
      assert start < end <= |t| && end - start <= maxChars;
      assert raw == t[start..end];
    }
    TrimIdempotent(raw);
  }

  /** Every chunk is non-empty and trimmed, and no longer than `maxChars` when that is positive. */
  lemma {:induction false} ChunksShape(t: string, maxChars: int, overlap: int, start: nat)
    requires Progresses(maxChars, overlap)
    ensures forall c :: c in ChunksFrom(t, maxChars, overlap, start) ==>
      c != "" && Trim(c) == c && (maxChars > 0 ==> |c| <= maxChars)
    decreases |t| - start
  {
    if start < |t| {
      var next := Next(|t|, start, maxChars, overlap);
      var c := Window(t, start, maxChars);
      WindowShape(t, start, maxChars);
      ChunksShape(t, maxChars, overlap, next);
      assert ChunksFrom(t, maxChars, overlap, start) == (if c != "" then [c] else []) + ChunksFrom(t, maxChars, overlap, next);
    }
  }

  /** The raw windows with no overlap, each `maxChars` long but the last. */
  function WindowsFrom(t: string, maxChars: int, start: nat): seq<string>
    requires maxChars > 0
    decreases |t| - start
  {
    if start >= |t| then []
    else [Substr(t, start, End(|t|, start, maxChars) - start)] + WindowsFrom(t, maxChars, Next(|t|, start, maxChars, 0))
  }

  function Flatten(ws: seq<string>): string {
    if ws == [] then "" else ws[0] + Flatten(ws[1..])
  }

  /** The trimmed non-empty members of `ws`, in order. */
  function TrimmedNonEmpty(ws: seq<string>): seq<string> {
    if ws == [] then []
    else (if Trim(ws[0]) != "" then [Trim(ws[0])] else []) + TrimmedNonEmpty(ws[1..])
  }

  lemma FlattenCons(w: string, ws: seq<string>)
    ensures Flatten([w] + ws) == w + Flatten(ws)
  {
    assert ([w] + ws)[1..] == ws;
  }

  lemma TrimmedNonEmptyCons(w: string, ws: seq<string>)
    ensures TrimmedNonEmpty([w] + ws) == (if Trim(w) != "" then [Trim(w)] else []) + TrimmedNonEmpty(ws)
  {
    assert ([w] + ws)[1..] == ws;
  }

  /** With no overlap, the window at `start` is the slice up to the next start. */
  lemma WindowSlice(t: string, maxChars: int, start: nat)
    requires maxChars > 0 && start < |t|
    ensures var next := Next(|t|, start, maxChars, 0);
      && start < next <= |t|
      && Substr(t, start, End(|t|, start, maxChars) - start) == t[start..next]
      && (next < |t| ==> next - start == maxChars)
  {
  }

  /** The windows put together give back the text from `start`. */
  lemma {:induction false} WindowsFlatten(t: string, maxChars: int, start: nat)
    requires maxChars > 0 && start <= |t|
    ensures Flatten(WindowsFrom(t, maxChars, start)) == t[start..]
    decreases |t| - start
  {
    if start < |t| {
      var next := Next(|t|, start, maxChars, 0);
      WindowSlice(t, maxChars, start);
      WindowsFlatten(t, maxChars, next);
      var w := t[start..next];
      FlattenCons(w, WindowsFrom(t, maxChars, next));
      assert t[start..] == w + t[next..];
    } else {
      assert t[start..] == [];
    }
  }

  /** Every window is `maxChars` long but the last, which is not empty. */
  lemma {:induction false} WindowsLengths(t: string, maxChars: int, start: nat)
    requires maxChars > 0 && start <= |t|
    ensures var ws := WindowsFrom(t, maxChars, start);
      && (forall i :: 0 <= i < |ws| - 1 ==> |ws[i]| == maxChars)
      && (ws != [] ==> 0 < |ws[|ws| - 1]| <= maxChars)
    decreases |t| - start
  {
    if start < |t| {
      var next := Next(|t|, start, maxChars, 0);
      WindowSlice(t, maxChars, start);
      WindowsLengths(t, maxChars, next);
      var rest := WindowsFrom(t, maxChars, next);
      var ws := WindowsFrom(t, maxChars, start);
      assert ws == [t[start..next]] + rest;
      forall i | 0 <= i < |ws| - 1
        ensures |ws[i]| == maxChars
      {
        if i > 0 {
          assert ws[i] == rest[i - 1];
        } else {
          assert rest != [];
        }
      }
      if rest != [] {
        assert ws[|ws| - 1] == rest[|rest| - 1];
      }
    }
  }

  /** With no overlap the chunks are the windows trimmed, empty ones dropped. */
  lemma {:induction false} WindowsChunks(t: string, maxChars: int, start: nat)
    requires maxChars > 0 && start <= |t|
    ensures ChunksFrom(t, maxChars, 0, start) == TrimmedNonEmpty(WindowsFrom(t, maxChars, start))
    decreases |t| - start
  {
    if start < |t| {
      var next := Next(|t|, start, maxChars, 0);
      WindowsChunks(t, maxChars, next);
      TrimmedNonEmptyCons(Substr(t, start, End(|t|, start, maxChars) - start), WindowsFrom(t, maxChars, next));
    }
  }

  /**
   * With no overlap the windows are consecutive, disjoint slices that put
   * together give back the text, all `maxChars` long but the last; the chunks
   * are those windows trimmed, empty ones dropped.
   */
  lemma WindowsTile(t: string, maxChars: int, start: nat)
    requires maxChars > 0 && start <= |t|
    ensures Flatten(WindowsFrom(t, maxChars, start)) == t[start..]
    ensures var ws := WindowsFrom(t, maxChars, start);
      forall i :: 0 <= i < |ws| - 1 ==> |ws[i]| == maxChars
    ensures var ws := WindowsFrom(t, maxChars, start);
      ws != [] ==> 0 < |ws[|ws| - 1]| <= maxChars
    ensures ChunksFrom(t, maxChars, 0, start) == TrimmedNonEmpty(WindowsFrom(t, maxChars, start))
  {
    WindowsFlatten(t, maxChars, start);
    WindowsLengths(t, maxChars, start);
    WindowsChunks(t, maxChars, start);
  }

  /**
   * The loop as evidently intended: stop after the window that reaches the
   * end of the text instead of stepping back by the overlap.
   */
  function CorrectedChunksFrom(t: string, maxChars: int, overlap: int, start: nat): seq<string>
    requires maxChars > overlap
    decreases |t| - start
  {
    if start >= |t| then []
    else
      var c := Window(t, start, maxChars);
      (if c != "" then [c] else [])
      + (if End(|t|, start, maxChars) >= |t| then []
         else CorrectedChunksFrom(t, maxChars, overlap, Next(|t|, start, maxChars, overlap)))
  }

  function CorrectedChunks(text: string, maxChars: int, overlap: int): seq<string>
    requires Trim(text) != "" ==> maxChars > overlap
  {
    var t := Trim(text);
    if t == "" then [] else CorrectedChunksFrom(t, maxChars, overlap, 0)
  }

  /** Wherever the loop as written ends, the corrected one gives the same chunks. */
  lemma {:induction false} CorrectedAgrees(t: string, maxChars: int, overlap: int, start: nat)
    requires Progresses(maxChars, overlap)
    ensures CorrectedChunksFrom(t, maxChars, overlap, start) == ChunksFrom(t, maxChars, overlap, start)
    decreases |t| - start
  {
    if start < |t| {
      var next := Next(|t|, start, maxChars, overlap);
      if End(|t|, start, maxChars) >= |t| {
        assert ChunksFrom(t, maxChars, overlap, next) == [];
      } else {
        CorrectedAgrees(t, maxChars, overlap, next);
      }
    }
  }

  /** The starts of the corrected loop's windows. */
  function CorrectedStarts(t: string, maxChars: int, overlap: int, start: nat): seq<nat>
    requires maxChars > overlap
    decreases |t| - start
  {
    if start >= |t| then []
    else [start] + (if End(|t|, start, maxChars) >= |t| then []
                    else CorrectedStarts(t, maxChars, overlap, Next(|t|, start, maxChars, overlap)))
  }

  /**
   * For 0 <= overlap < maxChars (the defaults included) each window starts
   * `maxChars - overlap` after the one before, so consecutive windows share
   * exactly `overlap` characters, and the last window reaches the end of the text.
   */
  lemma {:induction false} CorrectedWindowsOverlap(t: string, maxChars: int, overlap: int, start: nat)
    requires 0 <= overlap < maxChars && start < |t|
    ensures var ss := CorrectedStarts(t, maxChars, overlap, start);
      && ss != [] && ss[0] == start
      && (forall i :: 0 <= i < |ss| - 1 ==> ss[i + 1] == ss[i] + maxChars - overlap)
      && ss[|ss| - 1] + maxChars >= |t|
    decreases |t| - start
  {
    var next := Next(|t|, start, maxChars, overlap);
    if End(|t|, start, maxChars) < |t| {
      CorrectedWindowsOverlap(t, maxChars, overlap, next);
      var ss := CorrectedStarts(t, maxChars, overlap, start);
      assert ss == [start] + CorrectedStarts(t, maxChars, overlap, next);
    }
  }

  /** The loop of `chunk`, for the settings under which it terminates. */
  method Chunk(text: string, maxChars: int, overlap: int) returns (chunks: seq<string>)
    requires Trim(text) != "" ==> Progresses(maxChars, overlap)
    ensures chunks == Chunks(text, maxChars, overlap)
  {
    var t := Trim(text);
    if t == "" {
      return [];
    }
    chunks := [];
    var length := |t|;
    var start: nat := 0;
    while start < length
      invariant chunks + ChunksFrom(t, maxChars, overlap, start) == ChunksFrom(t, maxChars, overlap, 0)
      decreases length - start
    {
      var end := End(length, start, maxChars);
      var chunk := Window(t, start, maxChars);
      ghost var next := Next(length, start, maxChars, overlap);
      ghost var rest := ChunksFrom(t, maxChars, overlap, next);
      assert ChunksFrom(t, maxChars, overlap, start) == (if chunk != "" then [chunk] else []) + rest;
      if chunk != "" {
        assert chunks + ([chunk] + rest) == (chunks + [chunk]) + rest;
        chunks := chunks + [chunk];
      } else {
        assert [] + rest == rest;
      }
      var s := end - overlap;
      if s < 0 {
        s := 0;
      }
      assert s == next;
      start := s;
    }
  }

  /* ------------------------------------------------------------ index/search */

  /** `(int) ($options['chunk_size'] ?? 1000)`. */
  function ChunkSize(options: seq<Entry>): int {
    IntOf(Coalesce(options, StrKey("chunk_size"), Int(1000)))
  }

  /** `(int) ($options['chunk_overlap'] ?? 100)`. */
  function ChunkOverlap(options: seq<Entry>): int {
    IntOf(Coalesce(options, StrKey("chunk_overlap"), Int(100)))
  }

  /** `$response['embeddings'] ?? []`. */
  function EmbeddingsOf(response: Value): Value {
    if response.Arr? then Coalesce(response.entries, StrKey("embeddings"), Arr([])) else Arr([])
  }

  /** `$embeddings[$i]`, null when absent. */
  function Element(embeddings: Value, i: nat): Value {
    match embeddings
    case Arr(es) => Coalesce(es, IntKey(i), Null)
    case Str(s) => if i < |s| then Str([s[i]]) else Null
    case _ => Null
  }

  /** `$embeddings[$i]['embedding'] ?? $embeddings[$i] ?? null`. */
  function EmbeddingAt(embeddings: Value, i: nat): Value {
    var e := Element(embeddings, i);
    var inner := if e.Arr? then Coalesce(e.entries, StrKey("embedding"), Null) else Null;
    if inner != Null then inner else e
  }

  /** The item `index` builds for chunk number `index`. */
  function Item(id: string, vector: seq<Entry>, text: string, index: nat): Value {
    Arr([Entry(StrKey("id"), Str(id)),
         Entry(StrKey("embedding"), Arr(vector)),
         Entry(StrKey("metadata"), Arr([Entry(StrKey("text"), Str(text)), Entry(StrKey("index"), Int(index))]))])
  }

  /** The items built for the chunks, the `n`-th taking `freshId(n)` as its id. */
  function Items(chunks: seq<string>, embeddings: Value, freshId: nat -> string): (r: seq<Value>)
    ensures |r| <= |chunks|
  {
    if chunks == [] then []
    else
      var i := |chunks| - 1;
      var built := Items(chunks[..i], embeddings, freshId);
      var e := EmbeddingAt(embeddings, i);
      if e.Arr? then built + [Item(freshId(|built|), Floats(e.entries), chunks[i], i)] else built
  }

  /** `item` is the one built for chunk `j` as the `k`-th item. */
  predicate BuiltFrom(chunks: seq<string>, embeddings: Value, freshId: nat -> string, k: nat, item: Value) {
    exists j :: 0 <= j < |chunks| && Paired(chunks, embeddings, freshId, k, j, item)
  }

  predicate Paired(chunks: seq<string>, embeddings: Value, freshId: nat -> string, k: nat, j: nat, item: Value)
    requires j < |chunks|
  {
    EmbeddingAt(embeddings, j).Arr? && item == Item(freshId(k), Floats(EmbeddingAt(embeddings, j).entries), chunks[j], j)
  }

  /**
   * Each item pairs chunk `j` with `embeddings[j]`: its vector is that
   * embedding as floats, its metadata the chunk's text and original index.
   */
  lemma {:induction false} ItemsPaired(chunks: seq<string>, embeddings: Value, freshId: nat -> string)
    ensures forall k :: 0 <= k < |Items(chunks, embeddings, freshId)| ==>
      BuiltFrom(chunks, embeddings, freshId, k, Items(chunks, embeddings, freshId)[k])
  {
    if chunks != [] {
      var i := |chunks| - 1;
      var init := chunks[..i];
      ItemsPaired(init, embeddings, freshId);
      var built := Items(init, embeddings, freshId);
      var r := Items(chunks, embeddings, freshId);
      forall k | 0 <= k < |r|
        ensures BuiltFrom(chunks, embeddings, freshId, k, r[k])
      {
        if k < |built| {
          assert r[k] == built[k];
          assert BuiltFrom(init, embeddings, freshId, k, built[k]);
          var j :| 0 <= j < |init| && Paired(init, embeddings, freshId, k, j, built[k]);
          assert init[j] == chunks[j];
          assert Paired(chunks, embeddings, freshId, k, j, r[k]);
        } else {
          assert Paired(chunks, embeddings, freshId, k, i, r[k]);
        }
      }
    }
  }

  /** The indices below `n` whose embedding is an array. */
  function ArrIndices(embeddings: Value, n: nat): set<nat> {
    set j: nat | j < n && EmbeddingAt(embeddings, j).Arr?
  }

  lemma ArrIndicesStep(embeddings: Value, n: nat)
    ensures ArrIndices(embeddings, n + 1)
         == ArrIndices(embeddings, n) + (if EmbeddingAt(embeddings, n).Arr? then {n} else {})
  {
  }

  /** Exactly the chunks with an array embedding get an item. */
  lemma {:induction false} ItemsCount(chunks: seq<string>, embeddings: Value, freshId: nat -> string)
    ensures |Items(chunks, embeddings, freshId)| == |ArrIndices(embeddings, |chunks|)|
  {
    if chunks != [] {
      var i := |chunks| - 1;
      ItemsCount(chunks[..i], embeddings, freshId);
      ArrIndicesStep(embeddings, i);
      if EmbeddingAt(embeddings, i).Arr? {
        assert i !in ArrIndices(embeddings, i);
      }
    }
  }

  /** Building one chunk more appends its item when its embedding is an array. */
  lemma ItemsPrefix(chunks: seq<string>, i: nat, embeddings: Value, freshId: nat -> string)
    requires i < |chunks|
    ensures var built := Items(chunks[..i], embeddings, freshId);
      var e := EmbeddingAt(embeddings, i);
      Items(chunks[..i + 1], embeddings, freshId)
        == if e.Arr? then built + [Item(freshId(|built|), Floats(e.entries), chunks[i], i)] else built
  {
    var p := chunks[..i + 1];
    assert p[..i] == chunks[..i];
  }

  lemma ItemStorable(id: string, vector: seq<Entry>, text: string, index: nat)
    ensures Storable(Item(id, vector, text, index)) && IdOf(Item(id, vector, text, index)) == Str(id)
  {
    var es := Item(id, vector, text, index).entries;
    assert Get(es, StrKey("id")) == Some(Str(id));
    assert Get(es, StrKey("embedding")) == Some(Arr(vector));
  }

  /** The items built are storable under their string ids. */
  lemma {:induction false} ItemsStorable(chunks: seq<string>, embeddings: Value, freshId: nat -> string)
    ensures forall k :: 0 <= k < |Items(chunks, embeddings, freshId)| ==>
      Storable(Items(chunks, embeddings, freshId)[k]) && IdOf(Items(chunks, embeddings, freshId)[k]) == Str(freshId(k))
  {
    if chunks != [] {
      var i := |chunks| - 1;
      ItemsStorable(chunks[..i], embeddings, freshId);
      var built := Items(chunks[..i], embeddings, freshId);
      var e := EmbeddingAt(embeddings, i);
      var r := Items(chunks, embeddings, freshId);
      if e.Arr? {
        ItemStorable(freshId(|built|), Floats(e.entries), chunks[i], i);
        assert r == built + [Item(freshId(|built|), Floats(e.entries), chunks[i], i)];
      } else {
        assert r == built;
      }
      forall k | 0 <= k < |r|
        ensures Storable(r[k]) && IdOf(r[k]) == Str(freshId(k))
      {
        if k < |built| {
          assert r[k] == built[k];
        }
      }
    }
  }

  /** The list of chunks passed to the embeddings call. */
  function ChunkList(chunks: seq<string>): Value {
    Arr(ListOf(seq(|chunks|, i requires 0 <= i < |chunks| => Str(chunks[i]))))
  }

  /**
   * `index($text, $store, $options)`; `embed` is the dispatcher's
   * `embeddings` call and `freshId` stands for `Str::uuid`. The chunker is
   * the corrected one, which agrees with `chunk` wherever `chunk` ends.
   */
  method Index(text: string, store: InMemoryVectorStore, options: seq<Entry>,
               embed: (Value, seq<Entry>) -> Result<Value, Throwable>, freshId: nat -> string)
    returns (r: Result<seq<Value>, Throwable>)
    requires Trim(text) != "" ==> ChunkSize(options) > ChunkOverlap(options)
    modifies store
    ensures var chunks := CorrectedChunks(text, ChunkSize(options), ChunkOverlap(options));
      chunks == [] ==> r == Success([]) && store.items == old(store.items)
    ensures var chunks := CorrectedChunks(text, ChunkSize(options), ChunkOverlap(options));
      chunks != [] && embed(ChunkList(chunks), options).Failure? ==>
        r == Failure(embed(ChunkList(chunks), options).error) && store.items == old(store.items)
    ensures var chunks := CorrectedChunks(text, ChunkSize(options), ChunkOverlap(options));
      chunks != [] && embed(ChunkList(chunks), options).Success? ==>
        var items := Items(chunks, EmbeddingsOf(embed(ChunkList(chunks), options).value), freshId);
        r == Success(items) && store.items == UpsertAll(old(store.items), items).0
  {
    var chunks := CorrectedChunks(text, ChunkSize(options), ChunkOverlap(options));
    if chunks == [] {
      return Success([]);
    }
    var response := embed(ChunkList(chunks), options);
    if response.Failure? {
      return Failure(response.error);
    }
    var embeddings := EmbeddingsOf(response.value);
    var items: seq<Value> := [];
    for i := 0 to |chunks|
      invariant items == Items(chunks[..i], embeddings, freshId)
      invariant store.items == old(store.items)
    {
      ItemsPrefix(chunks, i, embeddings, freshId);
      var embedding := EmbeddingAt(embeddings, i);
      if !embedding.Arr? {
        continue;
      }
      items := items + [Item(freshId(|items|), Floats(embedding.entries), chunks[i], i)];
    }
    assert chunks[..|chunks|] == chunks;
    ghost var before := store.items;
    var outcome := store.Upsert(items);
    assert (store.items, outcome) == UpsertAll(before, items);
    return Success(items);
  }

  /** Every indexed item ends up stored under its id, and the upsert raises nothing. */
  lemma IndexStoresAll(stored: seq<Entry>, chunks: seq<string>, embeddings: Value, freshId: nat -> string)
    ensures var items := Items(chunks, embeddings, freshId);
      && UpsertAll(stored, items).1 == Pass
      && forall k :: 0 <= k < |items| ==> Has(UpsertAll(stored, items).0, StrKey(freshId(k)))
  {
    var items := Items(chunks, embeddings, freshId);
    ItemsStorable(chunks, embeddings, freshId);
    assert StringIds(items);
    UpsertAllStrings(stored, items);
    forall k | 0 <= k < |items|
      ensures Has(UpsertAll(stored, items).0, StrKey(freshId(k)))
    {
      assert IdOf(items[k]).s == freshId(k);
    }
  }

  /** `(int) ($options['top_k'] ?? 5)`. */
  function TopK(options: seq<Entry>): int {
    IntOf(Coalesce(options, StrKey("top_k"), Int(5)))
  }

  /** What `search` returns once the embeddings call answered `response`. */
  function SearchResult(x: Externals, items: seq<Entry>, response: Value, options: seq<Entry>): (r: seq<Hit>)
    ensures !EmbeddingAt(EmbeddingsOf(response), 0).Arr? ==> r == []
    ensures TopK(options) >= 0 ==> |r| <= TopK(options)
  {
    var embedding := EmbeddingAt(EmbeddingsOf(response), 0);
    if !embedding.Arr? then []
    else QueryResult(x, items, Floats(embedding.entries), TopK(options))
  }

  /** `search($query, $store, $options)`. */
  method Search(x: Externals, query: string, store: InMemoryVectorStore, options: seq<Entry>,
                embed: (Value, seq<Entry>) -> Result<Value, Throwable>)
    returns (r: Result<seq<Hit>, Throwable>)
    ensures embed(Str(query), options).Failure? ==> r == Failure(embed(Str(query), options).error)
    ensures embed(Str(query), options).Success? ==>
      r == Success(SearchResult(x, store.items, embed(Str(query), options).value, options))
  {
    var response := embed(Str(query), options);
    if response.Failure? {
      return Failure(response.error);
    }
    var embedding := EmbeddingAt(EmbeddingsOf(response.value), 0);
    if !embedding.Arr? {
      return Success([]);
    }
    var hits := store.Query(x, Floats(embedding.entries), TopK(options));
    return Success(hits);
  }
}
