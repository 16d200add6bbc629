/**
 * `save_to_chroma` (load_data.py): filter and clean every chunk's metadata, sort the
 * chunks, number them, and write to the vector store only the chunks whose
 * id it does not hold yet. The store is reduced to the set of ids it holds,
 * None when there is no database directory; embedding and persistence are
 * not modelled.
 */
module ChromaSave {
  import opened PyValues
  import Sequences
  import opened MetadataCleaning
  import ChunkOrder
  import ChunkIds

  predicate HasId(c: Document)
  {
    "id" in c.metadata
  }

  predicate AllHaveIds(chunks: seq<Document>)
  {
    forall i :: 0 <= i < |chunks| ==> HasId(chunks[i])
  }

  /** Every id is a string, as `calculate_chunk_ids` writes them. */
  predicate StringIds(chunks: seq<Document>)
  {
    forall i :: 0 <= i < |chunks| ==> HasId(chunks[i]) && chunks[i].metadata["id"].PyStr?
  }

  /** `chunk.metadata["id"] in existing_ids`: only a string id can equal a stored one. */
  predicate Stored(existing: set<string>, c: Document)
  {
    HasId(c) && c.metadata["id"].PyStr? && c.metadata["id"].s in existing
  }

  function NotStored(existing: set<string>): Document -> bool
  {
    c => !Stored(existing, c)
  }

  /** `new_chunks`; a chunk without an id would raise KeyError, so every chunk must have one. */
  function NewChunks(chunks: seq<Document>, existing: set<string>): (r: seq<Document>)
    requires AllHaveIds(chunks)
    ensures AllHaveIds(r)
  {
    Sequences.FilterMembers(chunks, NotStored(existing));
    Sequences.Filter(chunks, NotStored(existing))
  }

  /** `[chunk.metadata["id"] for chunk in chunks]`. */
  function IdsOf(chunks: seq<Document>): (ids: seq<Value>)
    requires AllHaveIds(chunks)
    ensures |ids| == |chunks|
  {
    seq(|chunks|, i requires 0 <= i < |chunks| => chunks[i].metadata["id"])
  }

  /** The ids the store holds after adding `ids`. */
  function IdSet(ids: seq<Value>): set<string>
  {
    set i | 0 <= i < |ids| && ids[i].PyStr? :: ids[i].s
  }

  /**
   * The gate keeps exactly the chunks whose id is not stored, in their
   * order; with every id stored it keeps nothing, with an empty store all.
   */
  lemma NewChunksSpec(chunks: seq<Document>, existing: set<string>)
    requires AllHaveIds(chunks)
    ensures forall c :: c in NewChunks(chunks, existing) <==> c in chunks && !Stored(existing, c)
    ensures (forall i :: 0 <= i < |chunks| ==> Stored(existing, chunks[i])) ==> NewChunks(chunks, existing) == []
    ensures existing == {} ==> NewChunks(chunks, existing) == chunks
  {
    Sequences.FilterMembers(chunks, NotStored(existing));
    if forall i :: 0 <= i < |chunks| ==> Stored(existing, chunks[i]) {
      Sequences.FilterNone(chunks, NotStored(existing));
    }
    if existing == {} {
      Sequences.FilterAll(chunks, NotStored(existing));
    }
  }

  /** The gate keeps the chunk order: it works chunk by chunk. */
  lemma NewChunksOrder(a: seq<Document>, b: seq<Document>, existing: set<string>)
    requires AllHaveIds(a) && AllHaveIds(b)
    ensures AllHaveIds(a + b)
    ensures NewChunks(a + b, existing) == NewChunks(a, existing) + NewChunks(b, existing)
  {
    Sequences.FilterAppend(a, b, NotStored(existing));
  }

  /** Once the new chunks' ids are stored, the gate lets nothing through a second time. */
  lemma GateClosesBehindItself(chunks: seq<Document>, existing: set<string>)
    requires StringIds(chunks)
    ensures AllHaveIds(NewChunks(chunks, existing))
    ensures NewChunks(chunks, existing + IdSet(IdsOf(NewChunks(chunks, existing)))) == []
  {
    var unseen := NewChunks(chunks, existing);
    NewChunksSpec(chunks, existing);
    var after := existing + IdSet(IdsOf(unseen));
    forall i | 0 <= i < |chunks| ensures Stored(after, chunks[i]) {
      if !Stored(existing, chunks[i]) {
        assert chunks[i] in unseen;
        var j :| 0 <= j < |unseen| && unseen[j] == chunks[i];
        assert IdsOf(unseen)[j].s in IdSet(IdsOf(unseen));
      }
    }
    NewChunksSpec(chunks, after);
  }

  /** The chunks after `filter_complex_metadata`, which replaces each one's metadata in place. */
  function FilterAll(chunks: seq<Document>): (r: seq<Document>)
    ensures |r| == |chunks|
  {
    seq(|chunks|, i requires 0 <= i < |chunks| => Document(chunks[i].pageContent, FilteredComplex(chunks[i].metadata)))
  }

  /** The library filter over the chunk list, document by document. */
  method FilterChunks(chunks: array<Document>)
    modifies chunks
    ensures chunks[..] == FilterAll(old(chunks[..]))
  {
    ghost var before := chunks[..];
    ghost var target := FilterAll(before);
    for i := 0 to chunks.Length
      invariant ChunkIds.RewrittenUpTo(before, target, chunks[..], i)
    {
      ChunkIds.RewriteStep(before, target, chunks[..], i);
      chunks[i] := Document(chunks[i].pageContent, FilteredComplex(chunks[i].metadata));
    }
    ChunkIds.RewriteDone(before, target, chunks[..]);
  }

  /** What the chunks are sorted and numbered from: filtered, then cleaned. */
  function Prepared(chunks: seq<Document>): (r: seq<Document>)
    ensures |r| == |chunks|
  {
    CleanAll(FilterAll(chunks))
  }

  /**
   * A prepared chunk keeps its text and exactly its canonical keys with a
   * str, bool, int or float value, unchanged; None and other objects are gone.
   */
  lemma PreparedSpec(chunks: seq<Document>, i: nat)
    requires i < |chunks|
    ensures Prepared(chunks)[i].pageContent == chunks[i].pageContent
    ensures var m, p := chunks[i].metadata, Prepared(chunks)[i].metadata;
      && (forall k :: k in p <==> k in KeepKeys && k in m && IsSimple(m[k]) && !m[k].PyNone?)
      && (forall k :: k in p ==> p[k] == m[k])
  {
    CleanAfterFilter(chunks[i].metadata);
  }

  /**
   * Where the model's sort key is None after the filter and the cleaner:
   * exactly when the source is missing or not a str, or the page is a str
   * that `int()` rejects. A missing or None page reads as 0.
   */
  lemma PreparedKeyOf(m: Metadata)
    ensures var p := Cleaned(FilteredComplex(m));
      ChunkOrder.KeyOf(p).Some? <==>
        "source" in m && m["source"].PyStr? && ("page" in m && m["page"].PyStr? ==> ParseInt(m["page"].s).Some?)
    ensures var p := Cleaned(FilteredComplex(m));
      ChunkOrder.KeyOf(p).Some? && ("page" !in m || m["page"].PyNone?) ==> ChunkOrder.KeyOf(p).value.page == 0
  {
    CleanAfterFilter(m);
    var p := Cleaned(FilteredComplex(m));
    assert "start" !in p;
    assert Get(p, "source", PyNone).PyStr? <==> "source" in m && m["source"].PyStr?;
    var page := Get(p, "page", PyInt(0));
    if "page" in m && IsSimple(m["page"]) && !m["page"].PyNone? {
      assert page == m["page"];
    } else {
      assert page == PyInt(0);
    }
  }

  /** A None page is dropped by the filter, so the chunk sorts as page 0 instead of failing. */
  lemma NonePageSortsAsZero(source: string)
    ensures ChunkOrder.KeyOf(Cleaned(FilteredComplex(map["source" := PyStr(source), "page" := PyNone])))
            == Some(ChunkOrder.SortKey(source, 0, false, 0))
  {
    var m := map["source" := PyStr(source), "page" := PyNone];
    assert FilteredComplex(m) == map["source" := PyStr(source)];
    assert Cleaned(FilteredComplex(m)) == map["source" := PyStr(source)];
  }

  /** The chunks with their metadata cleaned, as the cleaning loops of `save_to_chroma` leave them. */
  function CleanAll(chunks: seq<Document>): (r: seq<Document>)
    ensures |r| == |chunks|
  {
    seq(|chunks|, i requires 0 <= i < |chunks| => Document(chunks[i].pageContent, Cleaned(chunks[i].metadata)))
  }

  predicate AllClean(chunks: seq<Document>)
  {
    forall i :: 0 <= i < |chunks| ==> IsClean(chunks[i].metadata)
  }

  /** Cleaned chunks keep their text and come out clean; clean chunks are left as they are. */
  lemma CleanAllSpec(chunks: seq<Document>)
    ensures forall i :: 0 <= i < |chunks| ==> CleanAll(chunks)[i].pageContent == chunks[i].pageContent
    ensures AllClean(CleanAll(chunks))
    ensures AllClean(chunks) ==> CleanAll(chunks) == chunks
  {
    forall i | 0 <= i < |chunks| ensures IsClean(CleanAll(chunks)[i].metadata) {
      CleanedIsClean(chunks[i].metadata);
    }
    if AllClean(chunks) {
      forall i | 0 <= i < |chunks| ensures CleanAll(chunks)[i] == chunks[i] {
        CleanFixesClean(chunks[i].metadata);
      }
    }
  }

  /** `for chunk in chunks: chunk.metadata = clean_metadata(chunk.metadata)`. */
  method CleanChunks(chunks: array<Document>)
    modifies chunks
    ensures chunks[..] == CleanAll(old(chunks[..]))
  {
    ghost var before := chunks[..];
    ghost var target := CleanAll(before);
    for i := 0 to chunks.Length
      invariant ChunkIds.RewrittenUpTo(before, target, chunks[..], i)
    {
      ChunkIds.RewriteStep(before, target, chunks[..], i);
      var cleaned := CleanMetadata(chunks[i].metadata);
      chunks[i] := Document(chunks[i].pageContent, cleaned);
    }
    ChunkIds.RewriteDone(before, target, chunks[..]);
  }

  /** The prepared chunks sorted and numbered, or None where some chunk has no model key. */
  function Numbered(chunks: seq<Document>): Option<seq<Document>>
  {
    match ChunkOrder.SortChunks(Prepared(chunks))
    case None => None
    case Some(sorted) => Some(ChunkIds.WithChunkIds(sorted))
  }

  /**
   * Numbering succeeds exactly when every prepared chunk has a sort key, and
   * then yields as many chunks as came in, each with a string id and
   * metadata the cleaner leaves alone.
   */
  lemma NumberedSpec(chunks: seq<Document>)
    ensures Numbered(chunks).Some? <==> ChunkOrder.AllHaveKeys(Prepared(chunks))
    ensures Numbered(chunks).Some? ==>
      var r := Numbered(chunks).value;
      |r| == |chunks| && StringIds(r) && AllHaveIds(r) && AllClean(r)
  {
    var cleaned := Prepared(chunks);
    ChunkOrder.SortChunksSpec(cleaned);
    if ChunkOrder.AllHaveKeys(cleaned) {
      CleanAllSpec(FilterAll(chunks));
      var sorted := ChunkOrder.SortChunks(cleaned).value;
      PermutationKeepsClean(sorted, cleaned);
      IdsKeepClean(sorted);
    }
  }

  lemma PermutationKeepsClean(a: seq<Document>, b: seq<Document>)
    requires multiset(a) == multiset(b) && AllClean(b)
    ensures AllClean(a)
  {
    forall i | 0 <= i < |a| ensures IsClean(a[i].metadata) {
      assert a[i] in multiset(b);
    }
  }

  /** Numbering clean chunks gives them string ids and keeps them clean. */
  lemma IdsKeepClean(sorted: seq<Document>)
    requires AllClean(sorted)
    ensures StringIds(ChunkIds.WithChunkIds(sorted)) && AllClean(ChunkIds.WithChunkIds(sorted))
  {
    var ids := ChunkIds.PageIds(sorted);
    var r := ChunkIds.AssignIds(sorted, ids);
    forall i | 0 <= i < |r| ensures IsClean(r[i].metadata) && HasId(r[i]) && r[i].metadata["id"].PyStr? {
      IdKeepsClean(sorted[i].metadata, ChunkIds.ChunkId(ids[i], ChunkIds.ChunkIndex(ids, i)));
    }
  }

  datatype SaveOutcome =
    | SortFailed
    | Created(documents: seq<Document>, ids: seq<Value>)
    | Added(documents: seq<Document>, ids: seq<Value>)
    | NothingNew

  /** The branch on the database directory, for chunks already numbered. */
  function Gate(withIds: seq<Document>, store: Option<set<string>>): SaveOutcome
    requires AllHaveIds(withIds)
  {
    if store.None? then Created(withIds, IdsOf(withIds))
    else
      var unseen := NewChunks(withIds, store.value);
      NewChunksSpec(withIds, store.value);
      if unseen == [] then NothingNew else Added(CleanAll(unseen), IdsOf(unseen))
  }

  /** What `save_to_chroma` writes, given the ids already stored (None: no database yet). */
  function SavePlan(chunks: seq<Document>, store: Option<set<string>>): SaveOutcome
  {
    match Numbered(chunks)
    case None => SortFailed
    case Some(withIds) =>
      NumberedSpec(chunks);
      Gate(withIds, store)
  }

  /** The ids the store holds afterwards. */
  function StoreAfter(store: Option<set<string>>, outcome: SaveOutcome): Option<set<string>>
  {
    match outcome
    case Created(_, ids) => Some(IdSet(ids))
    case Added(_, ids) => Some((if store.Some? then store.value else {}) + IdSet(ids))
    case _ => store
  }

  /**
   * A new database receives every numbered chunk; an existing one exactly
   * the chunks whose id it lacks, and nothing when it lacks none. The chunks
   * are clean already, so the second cleaning changes nothing, and the ids
   * passed alongside them are theirs, in the same order.
   */
  lemma GateSpec(withIds: seq<Document>, store: Option<set<string>>)
    requires StringIds(withIds) && AllClean(withIds)
    ensures store.None? ==> Gate(withIds, store) == Created(withIds, IdsOf(withIds))
    ensures store.Some? ==>
      var unseen := NewChunks(withIds, store.value);
      Gate(withIds, store) == if unseen == [] then NothingNew else Added(unseen, IdsOf(unseen))
    ensures Gate(withIds, store).Created? || Gate(withIds, store).Added? ==>
      var o := Gate(withIds, store);
      AllHaveIds(o.documents) && o.ids == IdsOf(o.documents)
  {
    if store.Some? {
      var unseen := NewChunks(withIds, store.value);
      NewChunksSpec(withIds, store.value);
      assert AllClean(unseen) by {
        forall i | 0 <= i < |unseen| ensures IsClean(unseen[i].metadata) {
          assert unseen[i] in withIds;
        }
      }
      CleanAllSpec(unseen);
    }
  }

  /** Against the store a save leaves, the same chunks add nothing. */
  lemma GateReingest(withIds: seq<Document>, store: Option<set<string>>)
    requires StringIds(withIds) && AllClean(withIds)
    requires Gate(withIds, store).Created? || Gate(withIds, store).Added?
    ensures Gate(withIds, StoreAfter(store, Gate(withIds, store))) == NothingNew
  {
    GateSpec(withIds, store);
    var after := StoreAfter(store, Gate(withIds, store));
    GateSpec(withIds, after);
    if store.None? {
      var none: set<string> := {};
      NewChunksSpec(withIds, none);
      GateClosesBehindItself(withIds, none);
      var stored := IdSet(IdsOf(withIds));
      assert none + stored == stored;
    } else {
      GateClosesBehindItself(withIds, store.value);
    }
  }

  /**
   * The save fails exactly when some prepared chunk has no sort key;
   * otherwise what it writes is the gate applied to the numbered chunks.
   */
  lemma SavePlanSpec(chunks: seq<Document>, store: Option<set<string>>)
    ensures SavePlan(chunks, store).SortFailed? <==> !ChunkOrder.AllHaveKeys(Prepared(chunks))
    ensures Numbered(chunks).Some? ==>
      && StringIds(Numbered(chunks).value) && AllClean(Numbered(chunks).value)
      && SavePlan(chunks, store) == Gate(Numbered(chunks).value, store)
  {
    NumberedSpec(chunks);
    if Numbered(chunks).Some? {
      var withIds := Numbered(chunks).value;
      if store.Some? {
        NewChunksSpec(withIds, store.value);
      }
    }
  }

  /** Saving the same chunks again, against the store the first save left, adds nothing. */
  lemma ReingestAddsNothing(chunks: seq<Document>, store: Option<set<string>>)
    requires SavePlan(chunks, store).Created? || SavePlan(chunks, store).Added?
    ensures SavePlan(chunks, StoreAfter(store, SavePlan(chunks, store))) == NothingNew
  {
    SavePlanSpec(chunks, store);
    var withIds := Numbered(chunks).value;
    SavePlanSpec(chunks, StoreAfter(store, SavePlan(chunks, store)));
    GateReingest(withIds, store);
  }

  /** `save_to_chroma` over the chunk list, in place: the list's metadata is filtered and cleaned. */
  method SaveToChroma(chunks: array<Document>, store: Option<set<string>>) returns (outcome: SaveOutcome)
    modifies chunks
    ensures chunks[..] == Prepared(old(chunks[..]))
    ensures outcome == SavePlan(old(chunks[..]), store)
  {
    ghost var input := chunks[..];
    FilterChunks(chunks);
    CleanChunks(chunks);
    var sorted := ChunkOrder.SortChunks(chunks[..]);
    if sorted.None? {
      return SortFailed;
    }
    var withIds := NumberSorted(sorted.value);
    NumberedSpec(input);
    outcome := ApplyGate(withIds, store);
  }

  /** `calculate_chunk_ids(chunks_sorted)`, on a list of its own. */
  method NumberSorted(sorted: seq<Document>) returns (withIds: seq<Document>)
    ensures withIds == ChunkIds.WithChunkIds(sorted)
  {
    var chunksSorted := new Document[|sorted|](i requires 0 <= i < |sorted| => sorted[i]);
    assert chunksSorted[..] == sorted;
    ChunkIds.CalculateChunkIds(chunksSorted);
    withIds := chunksSorted[..];
  }

  /** The two branches on the database directory, the second cleaning included. */
  method ApplyGate(withIds: seq<Document>, store: Option<set<string>>) returns (outcome: SaveOutcome)
    requires AllHaveIds(withIds)
    ensures outcome == Gate(withIds, store)
  {
    if store.None? {
      var newChunkIds := IdsOf(withIds);
      return Created(withIds, newChunkIds);
    }
    var newChunks := NewChunks(withIds, store.value);
    NewChunksSpec(withIds, store.value);
    if newChunks == [] {
      return NothingNew;
    }
    var newChunkIds := IdsOf(newChunks);
    var toAdd := new Document[|newChunks|](i requires 0 <= i < |newChunks| => newChunks[i]);
    assert toAdd[..] == newChunks;
    CleanChunks(toAdd);
    return Added(toAdd[..], newChunkIds);
  }
}
