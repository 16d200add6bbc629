/**
 * `calculate_chunk_ids` (load_data.py): every chunk gets the id
 * `{source}:{file_type}:page_{page}{_table}{_ocr}:chunk_{i}`, where i counts
 * the chunks since the page id last changed.
 */
module ChunkIds {
  import opened Strings
  import opened PyValues

  /** The page id of a chunk, with the defaults `dict.get` falls back to for absent keys. */
  function PageId(m: Metadata): string
  {
    var source := Get(m, "source", PyStr("UNKNOWN_SOURCE"));
    var page := Get(m, "page", PyInt(0));
    var hasTable := Get(m, "has_table", PyBool(false));
    var usedOcr := Get(m, "used_ocr", PyBool(false));
    var fileType := Get(m, "file_type", PyStr("unknown"));
    var tableSuffix := if Truthy(hasTable) then "_table" else "";
    var ocrSuffix := if Truthy(usedOcr) then "_ocr" else "";
    ToStr(source) + ":" + ToStr(fileType) + ":page_" + ToStr(page) + tableSuffix + ocrSuffix
  }

  function ChunkId(pageId: string, index: nat): string
  {
    pageId + ":chunk_" + NatToDecimal(index)
  }

  /** A chunk id determines both its page id and its index. */
  lemma ChunkIdInjective(p1: string, i1: nat, p2: string, i2: nat)
    requires ChunkId(p1, i1) == ChunkId(p2, i2)
    ensures p1 == p2 && i1 == i2
  {
    var b1 := "chunk_" + NatToDecimal(i1);
    var b2 := "chunk_" + NatToDecimal(i2);
    assert ChunkId(p1, i1) == p1 + [':'] + b1;
    assert ChunkId(p2, i2) == p2 + [':'] + b2;
    assert ':' !in b1 by { assert forall k :: 6 <= k < |b1| ==> IsDigit(b1[k]); }
    assert ':' !in b2 by { assert forall k :: 6 <= k < |b2| ==> IsDigit(b2[k]); }
    SplitAtLast(p1, b1, p2, b2, ':');
    assert NatToDecimal(i1) == b1[6..] == b2[6..] == NatToDecimal(i2);
    NatToDecimalInjective(i1, i2);
  }

  function PageIds(chunks: seq<Document>): (ids: seq<string>)
    ensures |ids| == |chunks|
    ensures forall i :: 0 <= i < |chunks| ==> ids[i] == PageId(chunks[i].metadata)
  {
    seq(|chunks|, i requires 0 <= i < |chunks| => PageId(chunks[i].metadata))
  }

  /** Where the run of equal page ids that ends at position i begins. */
  function RunStart<T(==)>(ids: seq<T>, i: nat): (s: nat)
    requires i < |ids|
    ensures s <= i
    ensures forall j :: s <= j <= i ==> ids[j] == ids[i]
    ensures s == 0 || ids[s - 1] != ids[i]
  {
    if i == 0 || ids[i - 1] != ids[i] then i else RunStart(ids, i - 1)
  }

  /** The chunk index of position i: how far it lies into its run. */
  function ChunkIndex<T(==)>(ids: seq<T>, i: nat): nat
    requires i < |ids|
  {
    i - RunStart(ids, i)
  }

  /** The recurrence the loop of `calculate_chunk_ids` follows. */
  lemma ChunkIndexStep<T>(ids: seq<T>, i: nat)
    requires 0 < i < |ids|
    ensures ChunkIndex(ids, i) == if ids[i] == ids[i - 1] then ChunkIndex(ids, i - 1) + 1 else 0
  {
  }

  /** A chunk with `id` written into its metadata. */
  function WithId(chunk: Document, id: string): Document
  {
    chunk.(metadata := chunk.metadata["id" := PyStr(id)])
  }

  /** The chunks with the ids of page-id sequence `ids` written into their "id" key. */
  function AssignIds(chunks: seq<Document>, ids: seq<string>): (r: seq<Document>)
    requires |ids| == |chunks|
    ensures |r| == |chunks|
    ensures forall i :: 0 <= i < |chunks| ==> r[i] == WithId(chunks[i], ChunkId(ids[i], ChunkIndex(ids, i)))
  {
    seq(|chunks|, i requires 0 <= i < |chunks| => WithId(chunks[i], ChunkId(ids[i], ChunkIndex(ids, i))))
  }

  /** The chunks with their ids written into the "id" key; nothing else changes. */
  function WithChunkIds(chunks: seq<Document>): seq<Document>
  {
    AssignIds(chunks, PageIds(chunks))
  }

  /** Same length and order, same text, only "id" changes, and it holds the chunk's id. */
  lemma WithChunkIdsShape(chunks: seq<Document>)
    ensures |WithChunkIds(chunks)| == |chunks|
    ensures forall i :: 0 <= i < |chunks| ==>
      var r := WithChunkIds(chunks)[i];
      && r.pageContent == chunks[i].pageContent
      && r.metadata.Keys == chunks[i].metadata.Keys + {"id"}
      && (forall k :: k in chunks[i].metadata && k != "id" ==> r.metadata[k] == chunks[i].metadata[k])
      && r.metadata["id"] == PyStr(ChunkId(PageId(chunks[i].metadata), ChunkIndex(PageIds(chunks), i)))
  {
  }

  /** After i passes of an in-place rewrite of `before` into `target`: the first i entries are rewritten, the rest untouched. */
  ghost predicate RewrittenUpTo<D>(before: seq<D>, target: seq<D>, current: seq<D>, i: nat)
  {
    && |target| == |before| && |current| == |before| && i <= |before|
    && (forall k :: 0 <= k < i ==> current[k] == target[k])
    && (forall k :: i <= k < |current| ==> current[k] == before[k])
  }

  lemma RewriteStep<D>(before: seq<D>, target: seq<D>, current: seq<D>, i: nat)
    requires RewrittenUpTo(before, target, current, i) && i < |current|
    ensures current[i] == before[i]
    ensures RewrittenUpTo(before, target, current[i := target[i]], i + 1)
  {
  }

  lemma RewriteDone<D>(before: seq<D>, target: seq<D>, current: seq<D>)
    requires RewrittenUpTo(before, target, current, |before|)
    ensures current == target
  {
  }

  /**
   * What `last_page_id` and `current_chunk_index` hold after i passes of the
   * loop: the page id of position i - 1 (None before the first pass) and
   * that position's chunk index.
   */
  ghost predicate IndexState<T>(ids: seq<T>, i: nat, lastPageId: Option<T>, currentChunkIndex: nat)
  {
    && i <= |ids|
    && (i == 0 ==> lastPageId == None)
    && (i > 0 ==> lastPageId == Some(ids[i - 1]) && currentChunkIndex == ChunkIndex(ids, i - 1))
  }

  /** One pass of the loop computes the chunk index of position i and keeps the state. */
  lemma IndexStep<T>(ids: seq<T>, i: nat, lastPageId: Option<T>, currentChunkIndex: nat)
    requires IndexState(ids, i, lastPageId, currentChunkIndex) && i < |ids|
    ensures var index := if lastPageId == Some(ids[i]) then currentChunkIndex + 1 else 0;
            && index == ChunkIndex(ids, i)
            && IndexState(ids, i + 1, Some(ids[i]), index)
  {
    if i > 0 {
      ChunkIndexStep(ids, i);
    }
  }

  /** `calculate_chunk_ids`, writing each chunk's id in place. */
  method CalculateChunkIds(chunks: array<Document>)
    modifies chunks
    ensures chunks[..] == WithChunkIds(old(chunks[..]))
  {
    ghost var before := chunks[..];
    ghost var ids := PageIds(before);
    ghost var target := AssignIds(before, ids);
    NumberChunks(chunks, before, ids, target);
  }

  /** The page ids of `before` and the ids-written chunks the loop must arrive at. */
  ghost predicate Planned(before: seq<Document>, ids: seq<string>, target: seq<Document>)
  {
    && |ids| == |before| && |target| == |before|
    && (forall k :: 0 <= k < |before| ==> ids[k] == PageId(before[k].metadata))
    && (forall k :: 0 <= k < |before| ==> target[k] == WithId(before[k], ChunkId(ids[k], ChunkIndex(ids, k))))
  }

  lemma PlannedAt(before: seq<Document>, ids: seq<string>, target: seq<Document>, i: nat)
    requires Planned(before, ids, target) && i < |before|
    ensures ids[i] == PageId(before[i].metadata)
    ensures target[i] == WithId(before[i], ChunkId(ids[i], ChunkIndex(ids, i)))
  {
  }

  /** The loop of `calculate_chunk_ids`, given the page ids and the ids-written chunks it must arrive at. */
  method NumberChunks(chunks: array<Document>,
                      ghost before: seq<Document>, ghost ids: seq<string>, ghost target: seq<Document>)
    requires chunks[..] == before && Planned(before, ids, target)
    modifies chunks
    ensures chunks[..] == target
  {
    var lastPageId: Option<string> := None;
    var currentChunkIndex: nat := 0;
    for i := 0 to chunks.Length
      invariant RewrittenUpTo(before, target, chunks[..], i)
      invariant IndexState(ids, i, lastPageId, currentChunkIndex)
    {
      lastPageId, currentChunkIndex := NumberChunk(chunks, i, lastPageId, currentChunkIndex, before, ids, target);
    }
    RewriteDone(before, target, chunks[..]);
  }

  /** One pass of the loop: chunk i gets the id made of its page id and its chunk index. */
  method NumberChunk(chunks: array<Document>, i: nat,
                     lastPageId: Option<string>, currentChunkIndex: nat,
                     ghost before: seq<Document>, ghost ids: seq<string>, ghost target: seq<Document>)
    returns (lastPageId': Option<string>, currentChunkIndex': nat)
    requires RewrittenUpTo(before, target, chunks[..], i) && i < chunks.Length
    requires Planned(before, ids, target) && IndexState(ids, i, lastPageId, currentChunkIndex)
    modifies chunks
    ensures RewrittenUpTo(before, target, chunks[..], i + 1)
    ensures IndexState(ids, i + 1, lastPageId', currentChunkIndex')
  {
    RewriteStep(before, target, chunks[..], i);
    PlannedAt(before, ids, target, i);
    var currentPageId := PageId(chunks[i].metadata);
    IndexStep(ids, i, lastPageId, currentChunkIndex);
    if lastPageId == Some(currentPageId) {
      currentChunkIndex' := currentChunkIndex + 1;
    } else {
      currentChunkIndex' := 0;
    }
    var chunkId := ChunkId(currentPageId, currentChunkIndex');
    lastPageId' := Some(currentPageId);
    chunks[i] := WithId(chunks[i], chunkId);
    assert chunks[..] == old(chunks[..])[i := target[i]];
  }

  /** Every page id forms one contiguous run: equal ids are never separated by a different one. */
  ghost predicate Contiguous<T>(ids: seq<T>)
  {
    forall i, j, k :: 0 <= i < j < k < |ids| && ids[i] == ids[k] ==> ids[j] == ids[i]
  }

  /** Inside a run that begins at s, the indices count 0, 1, 2, ... from s. */
  lemma {:induction false} IndicesCountWithinRun<T>(ids: seq<T>, s: nat, i: nat)
    requires s <= i < |ids|
    requires s == 0 || ids[s - 1] != ids[s]
    requires forall j :: s <= j <= i ==> ids[j] == ids[s]
    ensures ChunkIndex(ids, i) == i - s
  {
    if i > s {
      IndicesCountWithinRun(ids, s, i - 1);
      ChunkIndexStep(ids, i);
    }
  }

  /** Two positions on the same page, in a contiguous list, lie in the same run. */
  lemma SamePageSameRun<T>(ids: seq<T>, i: nat, j: nat)
    requires Contiguous(ids)
    requires i < j < |ids| && ids[i] == ids[j]
    ensures ChunkIndex(ids, j) == ChunkIndex(ids, i) + (j - i)
  {
    var s := RunStart(ids, i);
    forall k | s <= k <= j ensures ids[k] == ids[s] {
      if k > i {
        assert ids[k] == ids[i];
      }
    }
    IndicesCountWithinRun(ids, s, i);
    IndicesCountWithinRun(ids, s, j);
  }

  /** "Generate unique IDs for each chunk": true when every page's chunks are contiguous. */
  lemma ContiguousIdsUnique(chunks: seq<Document>)
    requires Contiguous(PageIds(chunks))
    ensures forall i, j :: 0 <= i < j < |chunks| ==>
      WithChunkIds(chunks)[i].metadata["id"] != WithChunkIds(chunks)[j].metadata["id"]
  {
    forall i, j | 0 <= i < j < |chunks|
      ensures WithChunkIds(chunks)[i].metadata["id"] != WithChunkIds(chunks)[j].metadata["id"]
    {
      IdsDistinct(chunks, PageIds(chunks), i, j);
    }
  }

  lemma IdsDistinct(chunks: seq<Document>, ids: seq<string>, i: nat, j: nat)
    requires |ids| == |chunks| && Contiguous(ids)
    requires i < j < |chunks|
    ensures AssignIds(chunks, ids)[i].metadata["id"] != AssignIds(chunks, ids)[j].metadata["id"]
  {
    var r := AssignIds(chunks, ids);
    assert r[i].metadata["id"] == PyStr(ChunkId(ids[i], ChunkIndex(ids, i)));
    assert r[j].metadata["id"] == PyStr(ChunkId(ids[j], ChunkIndex(ids, j)));
    if ChunkId(ids[i], ChunkIndex(ids, i)) == ChunkId(ids[j], ChunkIndex(ids, j)) {
      ChunkIdInjective(ids[i], ChunkIndex(ids, i), ids[j], ChunkIndex(ids, j));
      SamePageSameRun(ids, i, j);
      assert false;
    }
  }

  /** Without contiguity the ids can collide: pages a, b, a give "a..:chunk_0" twice. */
  lemma InterleavedPagesCollide(a: Document, b: Document)
    requires PageId(a.metadata) != PageId(b.metadata)
    ensures WithChunkIds([a, b, a])[0].metadata["id"] == WithChunkIds([a, b, a])[2].metadata["id"]
  {
    var ids := PageIds([a, b, a]);
    assert RunStart(ids, 2) == 2;
  }
}
