/**
 * Laws of the sectioning `extract_content_from_docx` (docx_loader.py)
 * performs. Together they determine the pieces of every body: a body
 * without tables is one run of its non-empty stripped paragraphs, and every
 * table, even one without Markdown, cuts the body in two at that point.
 */
module DocxSections {
  import opened Strings
  import opened PyValues
  import opened DocxContent
  import MetadataCleaning
  import Sequences

  /** The paragraphs that survive stripping, in body order. */
  function NonEmptyParagraphs(body: seq<Element>): seq<string>
  {
    if body == [] then []
    else NonEmptyParagraphs(body[..|body| - 1])
         + match body[|body| - 1]
           case Para(t) => if Strip(t) != "" then [Strip(t)] else []
           case Tbl(_) => []
  }

  /** The Markdown of the tables that have some, in body order. */
  function NonEmptyTables(body: seq<Element>, serialize: seq<seq<string>> -> string): seq<string>
  {
    if body == [] then []
    else NonEmptyTables(body[..|body| - 1], serialize)
         + match body[|body| - 1]
           case Para(_) => []
           case Tbl(rows) => if serialize(rows) != "" then [serialize(rows)] else []
  }

  /** The paragraphs of the text pieces, in order. */
  function TextOf(pieces: seq<Piece>): seq<string>
  {
    if pieces == [] then []
    else TextOf(pieces[..|pieces| - 1])
         + match pieces[|pieces| - 1]
           case TextPiece(ps) => ps
           case TablePiece(_) => []
  }

  /** The Markdown of the table pieces, in order. */
  function TablesOf(pieces: seq<Piece>): seq<string>
  {
    if pieces == [] then []
    else TablesOf(pieces[..|pieces| - 1])
         + match pieces[|pieces| - 1]
           case TextPiece(_) => []
           case TablePiece(md) => [md]
  }

  lemma {:induction false} TextOfAppend(a: seq<Piece>, b: seq<Piece>)
    ensures TextOf(a + b) == TextOf(a) + TextOf(b)
  {
    if b == [] {
      assert a + b == a;
    } else {
      assert (a + b)[..|a + b| - 1] == a + b[..|b| - 1];
      TextOfAppend(a, b[..|b| - 1]);
    }
  }

  lemma {:induction false} TablesOfAppend(a: seq<Piece>, b: seq<Piece>)
    ensures TablesOf(a + b) == TablesOf(a) + TablesOf(b)
  {
    if b == [] {
      assert a + b == a;
    } else {
      assert (a + b)[..|a + b| - 1] == a + b[..|b| - 1];
      TablesOfAppend(a, b[..|b| - 1]);
    }
  }

  lemma TextOfTextPieces(ps: seq<string>)
    ensures TextOf(TextPieces(ps)) == ps && TablesOf(TextPieces(ps)) == []
  {
    if ps != [] {
      assert TextPieces(ps)[..0] == [];
    }
  }

  lemma TablesOfTablePieces(md: string)
    ensures TextOf(TablePieces(md)) == [] && TablesOf(TablePieces(md)) == (if md == "" then [] else [md])
  {
    if md != "" {
      assert TablePieces(md)[..0] == [];
    }
  }

  /** One more element: how the pending run and the closed pieces grow. */
  lemma ScanLast(x: seq<Element>, init: seq<Element>, e: Element, serialize: seq<seq<string>> -> string)
    requires x == init + [e]
    ensures e.Para? ==> Pending(x) == Pending(init) + (if Strip(e.text) != "" then [Strip(e.text)] else [])
    ensures e.Para? ==> Closed(x, serialize) == Closed(init, serialize)
    ensures e.Tbl? ==> Pending(x) == []
    ensures e.Tbl? ==> Closed(x, serialize) == Closed(init, serialize) + TextPieces(Pending(init)) + TablePieces(serialize(e.rows))
  {
    assert x[..|x| - 1] == init;
  }

  /** One more element: how the surviving paragraphs and tables grow. */
  lemma SurvivorsLast(x: seq<Element>, init: seq<Element>, e: Element, serialize: seq<seq<string>> -> string)
    requires x == init + [e]
    ensures e.Para? ==> NonEmptyParagraphs(x) == NonEmptyParagraphs(init) + (if Strip(e.text) != "" then [Strip(e.text)] else [])
    ensures e.Para? ==> NonEmptyTables(x, serialize) == NonEmptyTables(init, serialize)
    ensures e.Tbl? ==> NonEmptyParagraphs(x) == NonEmptyParagraphs(init)
    ensures e.Tbl? ==> NonEmptyTables(x, serialize) == NonEmptyTables(init, serialize) + (if serialize(e.rows) != "" then [serialize(e.rows)] else [])
  {
    assert x[..|x| - 1] == init;
  }

  /** The closed pieces and the pending section together hold every surviving paragraph. */
  lemma {:induction false} ClosedText(body: seq<Element>, serialize: seq<seq<string>> -> string)
    ensures TextOf(Closed(body, serialize)) + Pending(body) == NonEmptyParagraphs(body)
  {
    if body != [] {
      var init := body[..|body| - 1];
      var e := body[|body| - 1];
      ClosedText(init, serialize);
      Sequences.AppendLast([], body);
      ScanLast(body, init, e, serialize);
      SurvivorsLast(body, init, e, serialize);
      if e.Tbl? {
        var c := Closed(init, serialize);
        TextOfAppend(c + TextPieces(Pending(init)), TablePieces(serialize(e.rows)));
        TextOfAppend(c, TextPieces(Pending(init)));
        TextOfTextPieces(Pending(init));
        TablesOfTablePieces(serialize(e.rows));
      }
    }
  }

  /** The closed pieces hold the Markdown of every table that has some. */
  lemma {:induction false} ClosedTables(body: seq<Element>, serialize: seq<seq<string>> -> string)
    ensures TablesOf(Closed(body, serialize)) == NonEmptyTables(body, serialize)
  {
    if body != [] {
      var init := body[..|body| - 1];
      var e := body[|body| - 1];
      ClosedTables(init, serialize);
      Sequences.AppendLast([], body);
      ScanLast(body, init, e, serialize);
      SurvivorsLast(body, init, e, serialize);
      if e.Tbl? {
        var c := Closed(init, serialize);
        TablesOfAppend(c + TextPieces(Pending(init)), TablePieces(serialize(e.rows)));
        TablesOfAppend(c, TextPieces(Pending(init)));
        TextOfTextPieces(Pending(init));
        TablesOfTablePieces(serialize(e.rows));
      }
    }
  }

  /** No paragraph text is lost, reordered or invented: only the empty ones are dropped. */
  lemma ParagraphsKept(body: seq<Element>, serialize: seq<seq<string>> -> string)
    ensures TextOf(Pieces(body, serialize)) == NonEmptyParagraphs(body)
  {
    ClosedText(body, serialize);
    TextOfAppend(Closed(body, serialize), TextPieces(Pending(body)));
    TextOfTextPieces(Pending(body));
  }

  /** Every table with Markdown appears once, in body order; tables without Markdown vanish. */
  lemma TablesKept(body: seq<Element>, serialize: seq<seq<string>> -> string)
    ensures TablesOf(Pieces(body, serialize)) == NonEmptyTables(body, serialize)
  {
    ClosedTables(body, serialize);
    TablesOfAppend(Closed(body, serialize), TextPieces(Pending(body)));
    TextOfTextPieces(Pending(body));
  }

  /** A body of paragraphs only is a single text run of its non-empty paragraphs (or nothing). */
  lemma {:induction false} NoTablesOneRun(body: seq<Element>, serialize: seq<seq<string>> -> string)
    requires forall i :: 0 <= i < |body| ==> body[i].Para?
    ensures Closed(body, serialize) == []
    ensures Pending(body) == NonEmptyParagraphs(body)
    ensures Pieces(body, serialize) == TextPieces(NonEmptyParagraphs(body))
  {
    if body != [] {
      NoTablesOneRun(body[..|body| - 1], serialize);
    }
  }

  /** Behind a prefix with nothing pending, the pending run is that of the rest. */
  lemma {:induction false} PendingAfterFlush(a: seq<Element>, b: seq<Element>)
    requires Pending(a) == []
    ensures Pending(a + b) == Pending(b)
  {
    if b == [] {
      assert a + b == a;
    } else {
      var init := b[..|b| - 1];
      var e := b[|b| - 1];
      Sequences.AppendLast(a, b);
      PendingAfterFlush(a, init);
      ScanLast(a + b, a + init, e, t => "");
      ScanLast(b, init, e, t => "");
    }
  }

  /** Behind a prefix with nothing pending, the rest of the body is sectioned on its own. */
  lemma {:induction false} ClosedAfterFlush(a: seq<Element>, b: seq<Element>, serialize: seq<seq<string>> -> string)
    requires Pending(a) == []
    ensures Closed(a + b, serialize) == Closed(a, serialize) + Closed(b, serialize)
    ensures Pending(a + b) == Pending(b)
  {
    PendingAfterFlush(a, b);
    if b != [] {
      var init := b[..|b| - 1];
      var e := b[|b| - 1];
      Sequences.AppendLast(a, b);
      ClosedAfterFlush(a, init, serialize);
      ScanLast(a + b, a + init, e, serialize);
      ScanLast(b, init, e, serialize);
      if e.Tbl? {
        Sequences.Regroup(Closed(a, serialize), Closed(init, serialize), TextPieces(Pending(init)), TablePieces(serialize(e.rows)));
      }
    } else {
      assert a + b == a;
    }
  }

  /**
   * Every table cuts the body: the pieces of a + [table] + b are those of a,
   * then the table's own piece if it has Markdown, then those of b. So an
   * empty table still separates two runs of paragraphs.
   */
  lemma TableSplits(a: seq<Element>, rows: seq<seq<string>>, b: seq<Element>, serialize: seq<seq<string>> -> string)
    ensures Pieces(a + [Tbl(rows)] + b, serialize) == Pieces(a, serialize) + TablePieces(serialize(rows)) + Pieces(b, serialize)
  {
    var x := a + [Tbl(rows)];
    assert x[..|x| - 1] == a;
    assert Closed(x, serialize) == Pieces(a, serialize) + TablePieces(serialize(rows));
    assert Pending(x) == [];
    ClosedAfterFlush(x, b, serialize);
  }

  /** Part i is piece i rendered at section i, numbered after the table pieces before it. */
  lemma {:induction false} PartsAt(pieces: seq<Piece>, i: nat)
    requires i < |pieces|
    ensures Parts(pieces)[i] == RenderPiece(pieces[i], i, TableCount(pieces[..i]))
  {
    if i < |pieces| - 1 {
      var init := pieces[..|pieces| - 1];
      PartsAt(init, i);
      assert init[..i] == pieces[..i];
    }
  }

  /**
   * What every part looks like: a text part joins its run, a table part
   * carries its heading, numbered one past the tables before it.
   */
  lemma PartShape(pieces: seq<Piece>, i: nat)
    requires i < |pieces|
    ensures Parts(pieces)[i].section == i
    ensures pieces[i].TextPiece? ==>
      Parts(pieces)[i] == ContentPart("text", Join("\n\n", pieces[i].paragraphs), i)
    ensures pieces[i].TablePiece? ==>
      Parts(pieces)[i] == ContentPart("table", TableHeading(TableCount(pieces[..i]) + 1, pieces[i].markdown), i)
  {
    PartsAt(pieces, i);
    RenderShape(pieces[i], i, TableCount(pieces[..i]));
  }

  lemma RenderShape(piece: Piece, section: nat, n: nat)
    ensures RenderPiece(piece, section, n).section == section
    ensures piece.TextPiece? ==> RenderPiece(piece, section, n) == ContentPart("text", Join("\n\n", piece.paragraphs), section)
    ensures piece.TablePiece? ==> RenderPiece(piece, section, n) == ContentPart("table", TableHeading(n + 1, piece.markdown), section)
  {
  }

  /** The documents of part i: its content, and metadata with exactly six keys. */
  lemma PartDocumentShape(filename: string, parts: seq<ContentPart>, i: nat)
    requires i < |parts|
    ensures var d := PartDocuments(filename, parts)[i];
      && d.pageContent == parts[i].content
      && d.metadata["source"] == PyStr(filename)
      && d.metadata["page"] == PyInt(i)
      && d.metadata["total_pages"] == PyInt(|parts|)
      && d.metadata["file_type"] == PyStr("docx")
      && d.metadata["has_table"] == PyBool(parts[i].kind == "table")
      && d.metadata["type"] == PyStr(if parts[i].kind == "table" then "docx_table" else "docx_text")
      && d.metadata.Keys == {"source", "page", "total_pages", "type", "has_table", "file_type"}
  {
  }

  /**
   * No part sets `used_ocr`, and the metadata is already what the library
   * filter and the cleaner keep.
   */
  lemma PartDocumentClean(filename: string, parts: seq<ContentPart>, i: nat)
    requires i < |parts|
    ensures "used_ocr" !in PartDocuments(filename, parts)[i].metadata
    ensures MetadataCleaning.IsClean(PartDocuments(filename, parts)[i].metadata)
    ensures MetadataCleaning.FilteredComplex(PartDocuments(filename, parts)[i].metadata)
            == PartDocuments(filename, parts)[i].metadata
  {
    assert PartDocuments(filename, parts)[i] == PartDocument(filename, parts[i], i, |parts|);
    PartMetadataClean(filename, parts[i], i, |parts|);
  }

  lemma PartMetadataClean(filename: string, part: ContentPart, i: nat, total: nat)
    ensures var m := PartDocument(filename, part, i, total).metadata;
      "used_ocr" !in m && MetadataCleaning.IsClean(m) && MetadataCleaning.FilteredComplex(m) == m
  {
    var m := PartDocument(filename, part, i, total).metadata;
    assert forall k :: k in m ==> !m[k].PyNone? && IsSimple(m[k]);
    MetadataCleaning.FilterFixesClean(m);
  }
}
