/**
 * `split_text` (load_data.py): sections with a table go to a splitter with
 * larger chunks, all others to the regular one, and the regular chunks
 * come first. The splitter itself is a library; here it is a parameter
 * taking the configuration it is built with and the documents to split.
 */
module TextSplitting {
  import opened PyValues
  import Sequences

  /** The arguments `RecursiveCharacterTextSplitter` is constructed with. */
  datatype SplitterConfig = SplitterConfig(chunkSize: nat, chunkOverlap: nat, separators: seq<string>)

  const RegularSplitter := SplitterConfig(1000, 200, ["\n\n", "\n", ". ", "? ", "! ", " ", ""])
  const TableSplitter := SplitterConfig(2000, 200, ["\n\n---\n", "\n\n", "\n", " ", ""])

  /** `doc.metadata.get('has_table')`, read as a condition. */
  predicate HasTable(d: Document)
  {
    Truthy(Get(d.metadata, "has_table", PyNone))
  }

  predicate IsRegular(d: Document)
  {
    !HasTable(d)
  }

  /** `docs_with_tables`. */
  function TableDocs(documents: seq<Document>): seq<Document>
  {
    Sequences.Filter(documents, HasTable)
  }

  /** `regular_docs`. */
  function RegularDocs(documents: seq<Document>): seq<Document>
  {
    Sequences.Filter(documents, IsRegular)
  }

  /** What `split_text` returns; a splitter is only run on a non-empty list. */
  function SplitText(documents: seq<Document>, split: (SplitterConfig, seq<Document>) -> seq<Document>): seq<Document>
  {
    var withTables := TableDocs(documents);
    var regular := RegularDocs(documents);
    (if regular != [] then split(RegularSplitter, regular) else [])
      + (if withTables != [] then split(TableSplitter, withTables) else [])
  }

  /**
   * The two lists partition the input: each document lands in exactly one
   * of them according to its flag, nothing is lost or duplicated, and each
   * keeps the input order.
   */
  lemma PartitionSpec(documents: seq<Document>)
    ensures forall d :: d in TableDocs(documents) <==> d in documents && HasTable(d)
    ensures forall d :: d in RegularDocs(documents) <==> d in documents && !HasTable(d)
    ensures forall d :: !(d in TableDocs(documents) && d in RegularDocs(documents))
    ensures multiset(RegularDocs(documents)) + multiset(TableDocs(documents)) == multiset(documents)
  {
    Sequences.FilterMembers(documents, HasTable);
    Sequences.FilterMembers(documents, IsRegular);
    Sequences.FilterPartition(documents, IsRegular, HasTable);
  }

  /** Both lists keep the input order: the partition of a concatenation is the concatenation of the partitions. */
  lemma PartitionOrder(a: seq<Document>, b: seq<Document>)
    ensures TableDocs(a + b) == TableDocs(a) + TableDocs(b)
    ensures RegularDocs(a + b) == RegularDocs(a) + RegularDocs(b)
  {
    Sequences.FilterAppend(a, b, HasTable);
    Sequences.FilterAppend(a, b, IsRegular);
  }

  /**
   * A splitter that copies each input's metadata to the chunks cut from it,
   * as LangChain's does: every chunk shares the `has_table` flag of some input.
   */
  ghost predicate KeepsTableFlag(split: (SplitterConfig, seq<Document>) -> seq<Document>)
  {
    forall config, ds, i :: 0 <= i < |split(config, ds)| ==>
      exists j :: 0 <= j < |ds| && HasTable(ds[j]) == HasTable(split(config, ds)[i])
  }

  /**
   * With such a splitter the regular chunks come first: once a chunk with a
   * table appears, every later chunk has one too.
   */
  lemma RegularChunksFirst(documents: seq<Document>, split: (SplitterConfig, seq<Document>) -> seq<Document>)
    requires KeepsTableFlag(split)
    ensures var r := SplitText(documents, split);
      forall i, j :: 0 <= i < j < |r| && HasTable(r[i]) ==> HasTable(r[j])
  {
    var regular := RegularDocs(documents);
    var withTables := TableDocs(documents);
    var left := if regular != [] then split(RegularSplitter, regular) else [];
    var right := if withTables != [] then split(TableSplitter, withTables) else [];
    forall i | 0 <= i < |left| ensures !HasTable(left[i]) {
      var j :| 0 <= j < |regular| && HasTable(regular[j]) == HasTable(left[i]);
      assert IsRegular(regular[j]);
    }
    forall i | 0 <= i < |right| ensures HasTable(right[i]) {
      var j :| 0 <= j < |withTables| && HasTable(withTables[j]) == HasTable(right[i]);
      assert HasTable(withTables[j]);
    }
    var r := left + right;
    forall i, j | 0 <= i < j < |r| && HasTable(r[i]) ensures HasTable(r[j]) {
      assert i >= |left|;
    }
  }

  /** Without any table the table splitter is never run, and the other way round. */
  lemma OneKindOneSplitter(documents: seq<Document>, split: (SplitterConfig, seq<Document>) -> seq<Document>)
    ensures (forall i :: 0 <= i < |documents| ==> !HasTable(documents[i])) ==>
      SplitText(documents, split) == if documents == [] then [] else split(RegularSplitter, documents)
    ensures (forall i :: 0 <= i < |documents| ==> HasTable(documents[i])) ==>
      SplitText(documents, split) == if documents == [] then [] else split(TableSplitter, documents)
  {
    if forall i :: 0 <= i < |documents| ==> !HasTable(documents[i]) {
      Sequences.FilterAll(documents, IsRegular);
      Sequences.FilterNone(documents, HasTable);
    }
    if forall i :: 0 <= i < |documents| ==> HasTable(documents[i]) {
      Sequences.FilterAll(documents, HasTable);
      Sequences.FilterNone(documents, IsRegular);
    }
  }
}
