/**
 * Why the sort in `save_to_chroma` (load_data.py) makes the ids of DOCX
 * chunks unique. For metadata as the DOCX loader writes it, the page id is
 * a one-to-one function of the sort key, so sorting by the key puts every
 * page's chunks in one contiguous run, and contiguous runs get distinct ids.
 */
module UniqueIds {
  import opened Strings
  import opened PyValues
  import MetadataCleaning
  import ChunkOrder
  import ChunkIds
  import ChromaSave
  import DocxContent
  import DocxSections
  import Sequences

  /**
   * Metadata with the keys the DOCX loader sets, of the types it sets them
   * to, and without `used_ocr` (other keys may be present).
   */
  predicate DocxMetadata(m: Metadata)
  {
    && "source" in m && m["source"].PyStr?
    && "page" in m && m["page"].PyInt?
    && "has_table" in m && m["has_table"].PyBool?
    && "file_type" in m && m["file_type"] == PyStr("docx")
    && "used_ocr" !in m
  }

  function TableSuffix(hasTable: bool): string
  {
    if hasTable then "_table" else ""
  }

  /** The page id of a DOCX chunk with sort key k. */
  function DocxPageId(k: ChunkOrder.SortKey): string
  {
    k.source + ":" + "docx" + ":page_" + IntToDecimal(k.page) + TableSuffix(k.hasTable)
  }

  /** Every section the DOCX loader returns has such metadata. */
  lemma LoaderWritesDocxMetadata(filename: string, parts: seq<DocxContent.ContentPart>, i: nat)
    requires i < |parts|
    ensures DocxMetadata(DocxContent.PartDocuments(filename, parts)[i].metadata)
  {
    DocxSections.PartDocumentShape(filename, parts, i);
  }

  /** The cleaner keeps that shape, and drops "start". */
  lemma CleanedDocxMetadata(m: Metadata)
    requires DocxMetadata(m)
    ensures DocxMetadata(MetadataCleaning.Cleaned(m)) && "start" !in MetadataCleaning.Cleaned(m)
  {
  }

  /** Such metadata always has a sort key: its source, page and flag, and 0. */
  lemma KeyOfDocx(m: Metadata)
    requires DocxMetadata(m) && "start" !in m
    ensures ChunkOrder.KeyOf(m) == Some(ChunkOrder.SortKey(m["source"].s, m["page"].i, m["has_table"].b, 0))
  {
  }

  /** The page id of such metadata is the DOCX page id of its key. */
  lemma PageIdOfKey(m: Metadata)
    requires DocxMetadata(m) && "start" !in m
    ensures ChunkOrder.KeyOf(m).Some?
    ensures ChunkIds.PageId(m) == DocxPageId(ChunkOrder.KeyOf(m).value)
  {
    KeyOfDocx(m);
    var k := ChunkOrder.KeyOf(m).value;
    assert ToStr(Get(m, "source", PyStr("UNKNOWN_SOURCE"))) == k.source;
    assert ToStr(Get(m, "file_type", PyStr("unknown"))) == "docx";
    assert ToStr(Get(m, "page", PyInt(0))) == IntToDecimal(k.page);
    assert (if Truthy(Get(m, "has_table", PyBool(false))) then "_table" else "") == TableSuffix(k.hasTable);
    assert (if Truthy(Get(m, "used_ocr", PyBool(false))) then "_ocr" else "") == "";
    Sequences.EmptyRight(DocxPageId(k));
  }

  /** `str(i)` ends in a digit. */
  lemma DecimalEndsInDigit(i: int)
    ensures IsDigit(IntToDecimal(i)[|IntToDecimal(i)| - 1])
  {
    if i < 0 {
      var d := NatToDecimal(-i);
      assert IntToDecimal(i)[|IntToDecimal(i)| - 1] == d[|d| - 1];
    }
  }

  /** `str(i)` is made of digits and a leading minus sign. */
  lemma NoColon(i: int, hasTable: bool)
    ensures ':' !in "page_" + IntToDecimal(i) + TableSuffix(hasTable)
  {
    var d := IntToDecimal(i);
    var t := TableSuffix(hasTable);
    var b := "page_" + d + t;
    forall k | 0 <= k < |b| ensures b[k] != ':' {
      if 5 <= k < 5 + |d| {
        assert b[k] == d[k - 5];
        if i < 0 && k > 5 {
          assert d[k - 5] == NatToDecimal(-i)[k - 6];
        }
      }
    }
  }

  /** A page id splits at its last ':' into the source and what follows "page_". */
  lemma PageIdParts(s1: string, d1: string, t1: string, s2: string, d2: string, t2: string)
    requires ':' !in "page_" + d1 + t1 && ':' !in "page_" + d2 + t2
    requires s1 + ":" + "docx" + ":page_" + d1 + t1 == s2 + ":" + "docx" + ":page_" + d2 + t2
    ensures s1 == s2 && d1 + t1 == d2 + t2
  {
    var page := ":page_";
    assert page[0] == ':' && page[1..] == "page_";
    Sequences.SplitOff(s1 + ":", "docx", page, d1, t1);
    Sequences.SplitOff(s2 + ":", "docx", page, d2, t2);
    SplitAtLast(s1 + ":" + "docx", "page_" + d1 + t1, s2 + ":" + "docx", "page_" + d2 + t2, ':');
    Sequences.CancelRight(s1 + ":", s2 + ":", "docx");
    Sequences.CancelRight(s1, s2, ":");
    assert "page_" + d1 + t1 == "page_" + (d1 + t1);
    assert "page_" + d2 + t2 == "page_" + (d2 + t2);
    Sequences.CancelLeft("page_", d1 + t1, d2 + t2);
  }

  /** Numbers that end in a digit, followed by the table suffix or not, are told apart. */
  lemma SuffixParts(d1: string, b1: bool, d2: string, b2: bool)
    requires |d1| > 0 && IsDigit(d1[|d1| - 1]) && |d2| > 0 && IsDigit(d2[|d2| - 1])
    requires d1 + TableSuffix(b1) == d2 + TableSuffix(b2)
    ensures b1 == b2 && d1 == d2
  {
    var x1 := d1 + TableSuffix(b1);
    var x2 := d2 + TableSuffix(b2);
    Sequences.EmptyRight(d1);
    Sequences.EmptyRight(d2);
    assert x1[|x1| - 1] == if b1 then 'e' else d1[|d1| - 1];
    assert x2[|x2| - 1] == if b2 then 'e' else d2[|d2| - 1];
    Sequences.CancelRight(d1, d2, TableSuffix(b1));
  }

  /** Different keys (with "start" 0) give different DOCX page ids. */
  lemma DocxPageIdInjective(k1: ChunkOrder.SortKey, k2: ChunkOrder.SortKey)
    requires k1.start == 0 && k2.start == 0
    requires DocxPageId(k1) == DocxPageId(k2)
    ensures k1 == k2
  {
    var d1 := IntToDecimal(k1.page);
    var d2 := IntToDecimal(k2.page);
    NoColon(k1.page, k1.hasTable);
    NoColon(k2.page, k2.hasTable);
    PageIdParts(k1.source, d1, TableSuffix(k1.hasTable), k2.source, d2, TableSuffix(k2.hasTable));
    DecimalEndsInDigit(k1.page);
    DecimalEndsInDigit(k2.page);
    SuffixParts(d1, k1.hasTable, d2, k2.hasTable);
    IntToDecimalInjective(k1.page, k2.page);
  }

  predicate AllDocx(chunks: seq<Document>)
  {
    forall i :: 0 <= i < |chunks| ==> DocxMetadata(chunks[i].metadata)
  }

  predicate AllDocxWithoutStart(chunks: seq<Document>)
  {
    forall i :: 0 <= i < |chunks| ==> DocxMetadata(chunks[i].metadata) && "start" !in chunks[i].metadata
  }

  /** A DOCX chunk without "start" has a key, and its page id is the key's DOCX page id. */
  lemma KeyAndPageId(d: Document)
    requires DocxMetadata(d.metadata) && "start" !in d.metadata
    ensures ChunkOrder.HasKey(d) && ChunkOrder.Key(d).start == 0
    ensures ChunkIds.PageId(d.metadata) == DocxPageId(ChunkOrder.Key(d))
  {
    KeyOfDocx(d.metadata);
    PageIdOfKey(d.metadata);
  }

  /** Sorted by key, DOCX chunks keep the chunks of every page together. */
  lemma SortedDocxContiguous(sorted: seq<Document>)
    requires AllDocxWithoutStart(sorted)
    requires ChunkOrder.SortedByKey(sorted, ChunkOrder.Key)
    ensures ChunkIds.Contiguous(ChunkIds.PageIds(sorted))
  {
    var ids := ChunkIds.PageIds(sorted);
    forall i, j, k | 0 <= i < j < k < |ids| && ids[i] == ids[k] ensures ids[j] == ids[i] {
      KeyAndPageId(sorted[i]);
      KeyAndPageId(sorted[j]);
      KeyAndPageId(sorted[k]);
      var ki, kj, kk := ChunkOrder.Key(sorted[i]), ChunkOrder.Key(sorted[j]), ChunkOrder.Key(sorted[k]);
      DocxPageIdInjective(ki, kk);
      assert ChunkOrder.KeyLe(ki, kj) && ChunkOrder.KeyLe(kj, kk);
      ChunkOrder.KeyLeAntisymmetric(ki, kj);
    }
  }

  /** The library filter keeps that shape: all four values are simple and none is None. */
  lemma FilteredDocxMetadata(m: Metadata)
    requires DocxMetadata(m)
    ensures DocxMetadata(MetadataCleaning.FilteredComplex(m))
  {
  }

  /** Prepared DOCX chunks have no "start" and keep their shape. */
  lemma CleanAllDocx(chunks: seq<Document>)
    requires AllDocx(chunks)
    ensures AllDocxWithoutStart(ChromaSave.Prepared(chunks))
    ensures ChunkOrder.AllHaveKeys(ChromaSave.Prepared(chunks))
  {
    var filtered := ChromaSave.FilterAll(chunks);
    var cleaned := ChromaSave.Prepared(chunks);
    forall i | 0 <= i < |cleaned| ensures DocxMetadata(cleaned[i].metadata) && "start" !in cleaned[i].metadata {
      FilteredDocxMetadata(chunks[i].metadata);
      CleanedDocxMetadata(filtered[i].metadata);
    }
    forall i | 0 <= i < |cleaned| ensures ChunkOrder.HasKey(cleaned[i]) {
      KeyAndPageId(cleaned[i]);
    }
  }

  lemma PermutationKeepsDocx(a: seq<Document>, b: seq<Document>)
    requires multiset(a) == multiset(b) && AllDocxWithoutStart(b)
    ensures AllDocxWithoutStart(a)
  {
    forall i | 0 <= i < |a| ensures DocxMetadata(a[i].metadata) && "start" !in a[i].metadata {
      assert a[i] in multiset(b);
    }
  }

  /**
   * "Generate unique IDs for each chunk" holds for DOCX chunks: after the
   * cleaning and the sort, no two of them get the same id.
   */
  lemma DocxChunkIdsUnique(chunks: seq<Document>)
    requires AllDocx(chunks)
    ensures ChromaSave.Numbered(chunks).Some?
    ensures var r := ChromaSave.Numbered(chunks).value;
      && ChromaSave.AllHaveIds(r)
      && forall i, j :: 0 <= i < j < |r| ==> r[i].metadata["id"] != r[j].metadata["id"]
  {
    var cleaned := ChromaSave.Prepared(chunks);
    CleanAllDocx(chunks);
    ChunkOrder.SortChunksSpec(cleaned);
    var sorted := ChunkOrder.SortChunks(cleaned).value;
    PermutationKeepsDocx(sorted, cleaned);
    SortedDocxContiguous(sorted);
    ChunkIds.ContiguousIdsUnique(sorted);
    ChromaSave.NumberedSpec(chunks);
  }
}
