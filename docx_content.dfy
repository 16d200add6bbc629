/**
 * `extract_content_from_docx` (docx_loader.py): the body of a Word
 * document, a sequence of paragraphs and tables in reading order, becomes
 * one document per content part. Runs of non-empty paragraphs merge into a
 * text part, every table ends the current run, and every table with
 * Markdown becomes a numbered table part.
 */
module DocxContent {
  import opened Strings
  import opened PyValues
  import DocxTables
  import Paths

  /** A body element: a paragraph's text, or a table's cell texts row by row. */
  datatype Element = Para(text: string) | Tbl(rows: seq<seq<string>>)

  /** An entry of `content_parts`: `{'type': kind, 'content': content, 'section': section}`. */
  datatype ContentPart = ContentPart(kind: string, content: string, section: nat)

  /** What a body breaks into before numbering: a run of paragraph texts, or a table's Markdown. */
  datatype Piece = TextPiece(paragraphs: seq<string>) | TablePiece(markdown: string)

  /** The Markdown `extract_docx_table` gives for a table. */
  function TableMarkdown(rows: seq<seq<string>>): string
  {
    DocxTables.Markdown(DocxTables.StrippedRows(rows))
  }

  function TextPieces(paragraphs: seq<string>): seq<Piece>
  {
    if paragraphs == [] then [] else [TextPiece(paragraphs)]
  }

  function TablePieces(markdown: string): seq<Piece>
  {
    if markdown == "" then [] else [TablePiece(markdown)]
  }

  /** The non-empty stripped paragraphs behind the last table: the pending section. */
  function Pending(body: seq<Element>): seq<string>
  {
    if body == [] then []
    else match body[|body| - 1]
      case Para(t) => Pending(body[..|body| - 1]) + (if Strip(t) != "" then [Strip(t)] else [])
      case Tbl(_) => []
  }

  /**
   * The pieces completed by the last table of the body, `serialize` giving
   * each table's Markdown. The sectioning does not depend on how tables are
   * serialised, so the laws below hold for every serialiser.
   */
  function Closed(body: seq<Element>, serialize: seq<seq<string>> -> string): seq<Piece>
  {
    if body == [] then []
    else match body[|body| - 1]
      case Para(_) => Closed(body[..|body| - 1], serialize)
      case Tbl(rows) =>
        Closed(body[..|body| - 1], serialize) + TextPieces(Pending(body[..|body| - 1])) + TablePieces(serialize(rows))
  }

  /** All pieces of a body, the trailing text included. */
  function Pieces(body: seq<Element>, serialize: seq<seq<string>> -> string): seq<Piece>
  {
    Closed(body, serialize) + TextPieces(Pending(body))
  }

  /** The number of table pieces. */
  function TableCount(pieces: seq<Piece>): nat
  {
    if pieces == [] then 0
    else TableCount(pieces[..|pieces| - 1]) + (if pieces[|pieces| - 1].TablePiece? then 1 else 0)
  }

  /** A table part's content: `f"\n**Bảng {n}:**\n{markdown}\n"`. */
  function TableHeading(n: nat, markdown: string): string
  {
    "\n**B\U{1EA3}ng " + NatToDecimal(n) + ":**\n" + markdown + "\n"
  }

  /** The content part for a piece at position `section` with `tablesBefore` table pieces before it. */
  function RenderPiece(piece: Piece, section: nat, tablesBefore: nat): ContentPart
  {
    match piece
    case TextPiece(paragraphs) => ContentPart("text", Join("\n\n", paragraphs), section)
    case TablePiece(markdown) => ContentPart("table", TableHeading(tablesBefore + 1, markdown), section)
  }

  function Parts(pieces: seq<Piece>): (parts: seq<ContentPart>)
    ensures |parts| == |pieces|
  {
    if pieces == [] then []
    else Parts(pieces[..|pieces| - 1]) + [RenderPiece(pieces[|pieces| - 1], |pieces| - 1, TableCount(pieces[..|pieces| - 1]))]
  }

  /** The content parts of a body. */
  function ContentParts(body: seq<Element>, serialize: seq<seq<string>> -> string): seq<ContentPart>
  {
    Parts(Pieces(body, serialize))
  }

  /** The document for part i of `total`. */
  function PartDocument(filename: string, part: ContentPart, i: nat, total: nat): Document
  {
    var hasTable := part.kind == "table";
    Document(part.content,
             map["source" := PyStr(filename), "page" := PyInt(i), "total_pages" := PyInt(total),
                 "type" := PyStr(if hasTable then "docx_table" else "docx_text"),
                 "has_table" := PyBool(hasTable), "file_type" := PyStr("docx")])
  }

  function PartDocuments(filename: string, parts: seq<ContentPart>): (docs: seq<Document>)
    ensures |docs| == |parts|
  {
    seq(|parts|, i requires 0 <= i < |parts| => PartDocument(filename, parts[i], i, |parts|))
  }

  /** What `extract_content_from_docx` returns; a body that cannot be opened gives []. */
  function DocxDocuments(filePath: string, body: Option<seq<Element>>): seq<Document>
  {
    if body.None? then [] else PartDocuments(Paths.Basename(filePath), ContentParts(body.value, TableMarkdown))
  }

  /**
   * The state of the element loop after the prefix `done` of the body:
   * `content_parts`, `current_section`, `section_num` and `table_count`.
   */
  ghost predicate ScanState(done: seq<Element>, serialize: seq<seq<string>> -> string,
                            contentParts: seq<ContentPart>, currentSection: seq<string>,
                            sectionNum: nat, tableCount: nat)
  {
    && contentParts == Parts(Closed(done, serialize))
    && currentSection == Pending(done)
    && sectionNum == |contentParts|
    && tableCount == TableCount(Closed(done, serialize))
  }

  /** The loop state right after a table has flushed the pending section. */
  ghost predicate FlushedState(done: seq<Element>, serialize: seq<seq<string>> -> string,
                               contentParts: seq<ContentPart>, sectionNum: nat, tableCount: nat)
  {
    var flushed := Closed(done, serialize) + TextPieces(Pending(done));
    && contentParts == Parts(flushed)
    && sectionNum == |contentParts|
    && tableCount == TableCount(flushed)
  }

  lemma PartsAppend(pieces: seq<Piece>, x: Piece)
    ensures Parts(pieces + [x]) == Parts(pieces) + [RenderPiece(x, |pieces|, TableCount(pieces))]
    ensures TableCount(pieces + [x]) == TableCount(pieces) + (if x.TablePiece? then 1 else 0)
  {
    assert (pieces + [x])[..|pieces|] == pieces;
  }

  /** A paragraph only extends the pending section, and only when it is non-empty after stripping. */
  lemma ScanPara(body: seq<Element>, e: nat, t: string, serialize: seq<seq<string>> -> string)
    requires e < |body| && body[e] == Para(t)
    ensures Closed(body[..e + 1], serialize) == Closed(body[..e], serialize)
    ensures Pending(body[..e + 1]) == Pending(body[..e]) + (if Strip(t) != "" then [Strip(t)] else [])
  {
    assert body[..e + 1][..e] == body[..e];
  }

  /** A table closes the pending section and then adds its own piece. */
  lemma ScanTbl(body: seq<Element>, e: nat, rows: seq<seq<string>>, serialize: seq<seq<string>> -> string)
    requires e < |body| && body[e] == Tbl(rows)
    ensures Closed(body[..e + 1], serialize)
            == Closed(body[..e], serialize) + TextPieces(Pending(body[..e])) + TablePieces(serialize(rows))
    ensures Pending(body[..e + 1]) == []
  {
    assert body[..e + 1][..e] == body[..e];
  }

  lemma ParaStep(body: seq<Element>, e: nat, t: string, serialize: seq<seq<string>> -> string,
                 contentParts: seq<ContentPart>, currentSection: seq<string>, sectionNum: nat, tableCount: nat)
    requires e < |body| && body[e] == Para(t)
    requires ScanState(body[..e], serialize, contentParts, currentSection, sectionNum, tableCount)
    ensures var text := Strip(t);
            ScanState(body[..e + 1], serialize, contentParts,
                      if text != "" then currentSection + [text] else currentSection, sectionNum, tableCount)
  {
    ScanPara(body, e, t, serialize);
  }

  /** Flushing a non-empty pending section appends one text part, whose text is never "". */
  lemma FlushStep(done: seq<Element>, serialize: seq<seq<string>> -> string,
                  contentParts: seq<ContentPart>, currentSection: seq<string>, sectionNum: nat, tableCount: nat)
    requires ScanState(done, serialize, contentParts, currentSection, sectionNum, tableCount)
    ensures currentSection != [] ==> Join("\n\n", currentSection) != ""
    ensures currentSection == [] ==> FlushedState(done, serialize, contentParts, sectionNum, tableCount)
    ensures currentSection != [] ==>
      FlushedState(done, serialize, contentParts + [ContentPart("text", Join("\n\n", currentSection), sectionNum)],
                   sectionNum + 1, tableCount)
  {
    PendingNonEmpty(done);
    if currentSection != [] {
      PartsAppend(Closed(done, serialize), TextPiece(currentSection));
    } else {
      assert Closed(done, serialize) + TextPieces(Pending(done)) == Closed(done, serialize);
    }
  }

  lemma TableStep(body: seq<Element>, e: nat, rows: seq<seq<string>>, serialize: seq<seq<string>> -> string,
                  markdown: string, contentParts: seq<ContentPart>, sectionNum: nat, tableCount: nat)
    requires e < |body| && body[e] == Tbl(rows)
    requires FlushedState(body[..e], serialize, contentParts, sectionNum, tableCount)
    requires markdown == serialize(rows)
    ensures markdown == "" ==> ScanState(body[..e + 1], serialize, contentParts, [], sectionNum, tableCount)
    ensures markdown != "" ==>
      ScanState(body[..e + 1], serialize,
                contentParts + [ContentPart("table", TableHeading(tableCount + 1, markdown), sectionNum)],
                [], sectionNum + 1, tableCount + 1)
  {
    ScanTbl(body, e, rows, serialize);
    var flushed := Closed(body[..e], serialize) + TextPieces(Pending(body[..e]));
    if markdown != "" {
      TableAppend(flushed, markdown, contentParts, sectionNum, tableCount);
    } else {
      assert flushed + TablePieces(markdown) == flushed;
    }
  }

  /** Appending a table piece to pieces already rendered appends its numbered part. */
  lemma TableAppend(flushed: seq<Piece>, markdown: string, contentParts: seq<ContentPart>, sectionNum: nat, tableCount: nat)
    requires contentParts == Parts(flushed) && sectionNum == |contentParts| && tableCount == TableCount(flushed)
    requires markdown != ""
    ensures Parts(flushed + TablePieces(markdown))
            == contentParts + [ContentPart("table", TableHeading(tableCount + 1, markdown), sectionNum)]
    ensures TableCount(flushed + TablePieces(markdown)) == tableCount + 1
  {
    assert flushed + TablePieces(markdown) == flushed + [TablePiece(markdown)];
    PartsAppend(flushed, TablePiece(markdown));
  }

  /** After the loop, the trailing flush completes the content parts of the whole body. */
  lemma TrailingStep(body: seq<Element>, serialize: seq<seq<string>> -> string,
                     contentParts: seq<ContentPart>, currentSection: seq<string>, sectionNum: nat, tableCount: nat)
    requires ScanState(body, serialize, contentParts, currentSection, sectionNum, tableCount)
    ensures currentSection != [] ==> Join("\n\n", currentSection) != ""
    ensures currentSection == [] ==> contentParts == ContentParts(body, serialize)
    ensures currentSection != [] ==>
      contentParts + [ContentPart("text", Join("\n\n", currentSection), sectionNum)] == ContentParts(body, serialize)
  {
    FlushStep(body, serialize, contentParts, currentSection, sectionNum, tableCount);
  }

  lemma PartDocumentsPrefix(filename: string, parts: seq<ContentPart>, i: nat)
    requires i < |parts|
    ensures PartDocuments(filename, parts)[..i + 1]
            == PartDocuments(filename, parts)[..i] + [PartDocument(filename, parts[i], i, |parts|)]
  {
  }

  lemma PartDocumentsWhole(filename: string, parts: seq<ContentPart>)
    ensures PartDocuments(filename, parts)[..|parts|] == PartDocuments(filename, parts)
  {
  }

  /** The closing loop of `extract_content_from_docx`: one document per content part. */
  method MakeDocuments(filename: string, contentParts: seq<ContentPart>) returns (documents: seq<Document>)
    ensures documents == PartDocuments(filename, contentParts)
  {
    documents := [];
    var totalSections := |contentParts|;
    for i := 0 to |contentParts|
      invariant documents == PartDocuments(filename, contentParts)[..i]
    {
      PartDocumentsPrefix(filename, contentParts, i);
      documents := documents + [PartDocument(filename, contentParts[i], i, totalSections)];
    }
    PartDocumentsWhole(filename, contentParts);
  }

  /** A table first saves the text accumulated before it. */
  method FlushSection(ghost done: seq<Element>, ghost serialize: seq<seq<string>> -> string,
                      contentParts: seq<ContentPart>, currentSection: seq<string>, sectionNum: nat,
                      ghost tableCount: nat)
    returns (contentParts': seq<ContentPart>, currentSection': seq<string>, sectionNum': nat)
    requires ScanState(done, serialize, contentParts, currentSection, sectionNum, tableCount)
    ensures FlushedState(done, serialize, contentParts', sectionNum', tableCount)
    ensures currentSection' == []
  {
    FlushStep(done, serialize, contentParts, currentSection, sectionNum, tableCount);
    contentParts', currentSection', sectionNum' := contentParts, currentSection, sectionNum;
    if currentSection' != [] {
      var sectionText := Join("\n\n", currentSection');
      if sectionText != "" {
        contentParts' := contentParts' + [ContentPart("text", sectionText, sectionNum')];
        sectionNum' := sectionNum' + 1;
      }
      currentSection' := [];
    }
  }

  /** After the flush, a table with Markdown becomes the next numbered part. */
  method AddTable(ghost body: seq<Element>, ghost e: nat, rows: seq<seq<string>>,
                  contentParts: seq<ContentPart>, sectionNum: nat, tableCount: nat)
    returns (contentParts': seq<ContentPart>, sectionNum': nat, tableCount': nat)
    requires e < |body| && body[e] == Tbl(rows)
    requires FlushedState(body[..e], TableMarkdown, contentParts, sectionNum, tableCount)
    ensures ScanState(body[..e + 1], TableMarkdown, contentParts', [], sectionNum', tableCount')
  {
    var markdownTable := DocxTables.ExtractDocxTable(rows);
    TableStep(body, e, rows, TableMarkdown, markdownTable, contentParts, sectionNum, tableCount);
    contentParts', sectionNum', tableCount' := contentParts, sectionNum, tableCount;
    if markdownTable != "" {
      tableCount' := tableCount' + 1;
      contentParts' := contentParts' + [ContentPart("table", TableHeading(tableCount', markdownTable), sectionNum')];
      sectionNum' := sectionNum' + 1;
    }
  }

  /** `extract_content_from_docx` over a body already read; None when the file cannot be opened. */
  method ExtractContentFromDocx(filePath: string, body: Option<seq<Element>>) returns (documents: seq<Document>)
    ensures documents == DocxDocuments(filePath, body)
  {
    var filename := Paths.Basename(filePath);
    if body.None? {
      return [];
    }
    var elements := body.value;
    var contentParts: seq<ContentPart> := [];
    var currentSection: seq<string> := [];
    var sectionNum: nat := 0;
    var tableCount: nat := 0;
    for e := 0 to |elements|
      invariant ScanState(elements[..e], TableMarkdown, contentParts, currentSection, sectionNum, tableCount)
    {
      match elements[e]
      case Para(paragraph) =>
        ParaStep(elements, e, paragraph, TableMarkdown, contentParts, currentSection, sectionNum, tableCount);
        var text := Strip(paragraph);
        if text != "" {
          currentSection := currentSection + [text];
        }
      case Tbl(rows) =>
        contentParts, currentSection, sectionNum :=
          FlushSection(elements[..e], TableMarkdown, contentParts, currentSection, sectionNum, tableCount);
        contentParts, sectionNum, tableCount := AddTable(elements, e, rows, contentParts, sectionNum, tableCount);
    }
    assert elements[..|elements|] == elements;
    TrailingStep(elements, TableMarkdown, contentParts, currentSection, sectionNum, tableCount);
    if currentSection != [] {
      var sectionText := Join("\n\n", currentSection);
      if sectionText != "" {
        contentParts := contentParts + [ContentPart("text", sectionText, sectionNum)];
      }
    }
    documents := MakeDocuments(filename, contentParts);
  }

  /** Every pending paragraph is non-empty, so a pending section never joins to "". */
  lemma {:induction false} PendingNonEmpty(body: seq<Element>)
    ensures forall i :: 0 <= i < |Pending(body)| ==> Pending(body)[i] != ""
    ensures Pending(body) != [] ==> Join("\n\n", Pending(body)) != ""
  {
    if body != [] {
      PendingNonEmpty(body[..|body| - 1]);
    }
    if Pending(body) != [] {
      JoinNonEmpty("\n\n", Pending(body));
    }
  }
}
