/**
 * `load_document` (load_data.py): pick the Word files of the knowledge-base
 * directory by name and concatenate the sections each of them yields.
 * The directory listing, whether the directory exists and the parsed body
 * of every file are inputs; a file that cannot be read has no body.
 */
module DocumentLoading {
  import opened Strings
  import opened PyValues
  import opened DocxContent
  import DocxSections
  import Paths
  import Sequences

  /** The name test: ".docx" in any letter case, and not an Office lock file "~$...". */
  predicate IsDocxFile(f: string)
  {
    EndsWith(Lower(f), ".docx") && !StartsWith(f, "~$")
  }

  /** `[f for f in os.listdir(data_path) if ...]`. */
  function SelectDocxFiles(listing: seq<string>): seq<string>
  {
    Sequences.Filter(listing, IsDocxFile)
  }

  /**
   * A name is selected exactly when it is listed, its lower-cased form ends
   * with ".docx" and it does not start with "~$"; the listing order is kept.
   */
  lemma SelectDocxFilesSpec(listing: seq<string>)
    ensures forall f :: f in SelectDocxFiles(listing) <==>
      f in listing && EndsWith(Lower(f), ".docx") && !StartsWith(f, "~$")
    ensures forall a, b :: listing == a + b ==> SelectDocxFiles(listing) == SelectDocxFiles(a) + SelectDocxFiles(b)
  {
    Sequences.FilterMembers(listing, IsDocxFile);
    forall a, b | listing == a + b
      ensures SelectDocxFiles(listing) == SelectDocxFiles(a) + SelectDocxFiles(b)
    {
      Sequences.FilterAppend(a, b, IsDocxFile);
    }
  }

  /** A name and its lower-cased form are selected alike: the test ignores letter case. */
  lemma IsDocxFileIgnoresCase(f: string)
    ensures IsDocxFile(Lower(f)) == IsDocxFile(f)
  {
    var g := Lower(f);
    LowerIdempotent(f);
    if 2 <= |f| {
      assert g[..2] == "~$" <==> f[..2] == "~$" by {
        assert g[..2] == [LowerChar(f[0]), LowerChar(f[1])];
        assert f[..2] == [f[0], f[1]];
      }
    }
  }

  /** The sections of every selected file, file by file. */
  function FileDocuments(dataPath: string, files: seq<string>, bodyOf: string -> Option<seq<Element>>): (r: seq<seq<Document>>)
    ensures |r| == |files|
  {
    seq(|files|, i requires 0 <= i < |files| =>
      DocxDocuments(Paths.PathJoin(dataPath, files[i]), bodyOf(Paths.PathJoin(dataPath, files[i]))))
  }

  /** What `load_document` returns. */
  function LoadedDocuments(dataPath: string, dataPathExists: bool, listing: seq<string>,
                           bodyOf: string -> Option<seq<Element>>): seq<Document>
  {
    if !dataPathExists then []
    else Sequences.Flatten(FileDocuments(dataPath, SelectDocxFiles(listing), bodyOf))
  }

  /** `load_document`: nothing when the directory is missing; otherwise the files' sections in listing order. */
  method LoadDocument(dataPath: string, dataPathExists: bool, listing: seq<string>,
                      bodyOf: string -> Option<seq<Element>>) returns (documents: seq<Document>)
    ensures documents == LoadedDocuments(dataPath, dataPathExists, listing, bodyOf)
  {
    documents := [];
    if !dataPathExists {
      return;
    }
    var docxFiles := SelectDocxFiles(listing);
    ghost var perFile := FileDocuments(dataPath, docxFiles, bodyOf);
    if docxFiles == [] {
      return;
    }
    for n := 0 to |docxFiles|
      invariant documents == Sequences.Flatten(perFile[..n])
    {
      var filePath := Paths.PathJoin(dataPath, docxFiles[n]);
      var docs := ExtractContentFromDocx(filePath, bodyOf(filePath));
      FlattenStep(perFile, n);
      if docs == [] {
        continue;
      }
      documents := documents + docs;
    }
    assert perFile[..|docxFiles|] == perFile;
  }

  lemma FlattenStep(parts: seq<seq<Document>>, n: nat)
    requires n < |parts|
    ensures Sequences.Flatten(parts[..n + 1]) == Sequences.Flatten(parts[..n]) + parts[n]
  {
    assert parts[..n + 1][..n] == parts[..n];
  }

  /** The section's metadata names `name` as its source. */
  predicate NamesSource(d: Document, name: string)
  {
    "source" in d.metadata && d.metadata["source"] == PyStr(name)
  }

  /** The section's metadata gives docx as its file type. */
  predicate IsDocxSection(d: Document)
  {
    "file_type" in d.metadata && d.metadata["file_type"] == PyStr("docx")
  }

  /** Every section `extract_content_from_docx` returns names the file's basename and type docx. */
  lemma DocxDocumentOrigin(filePath: string, body: Option<seq<Element>>, d: Document)
    requires d in DocxDocuments(filePath, body)
    ensures body.Some?
    ensures NamesSource(d, Paths.Basename(filePath))
    ensures IsDocxSection(d)
  {
    var parts := ContentParts(body.value, TableMarkdown);
    var docs := PartDocuments(Paths.Basename(filePath), parts);
    var i :| 0 <= i < |docs| && docs[i] == d;
    DocxSections.PartDocumentShape(Paths.Basename(filePath), parts, i);
  }

  /**
   * Every loaded section comes from a selected file of an existing
   * directory: its source is that file's basename, which is the listed
   * name itself when the name holds no "/", and its type is docx.
   */
  lemma LoadedProvenance(dataPath: string, dataPathExists: bool, listing: seq<string>,
                         bodyOf: string -> Option<seq<Element>>, d: Document)
    requires d in LoadedDocuments(dataPath, dataPathExists, listing, bodyOf)
    ensures dataPathExists
    ensures exists f :: (&& f in listing && IsDocxFile(f)
                         && NamesSource(d, Paths.Basename(Paths.PathJoin(dataPath, f)))
                         && ('/' !in f ==> NamesSource(d, f)))
    ensures IsDocxSection(d)
  {
    var files := SelectDocxFiles(listing);
    var perFile := FileDocuments(dataPath, files, bodyOf);
    Sequences.FlattenMembers(perFile, d);
    var i :| 0 <= i < |perFile| && d in perFile[i];
    var f := files[i];
    var path := Paths.PathJoin(dataPath, f);
    DocxDocumentOrigin(path, bodyOf(path), d);
    Sequences.FilterMembers(listing, IsDocxFile);
    assert f in files;
    if '/' !in f {
      Paths.BasenameOfJoin(dataPath, f);
    }
  }

  /** A missing directory, or one without selected files, loads nothing. */
  lemma NothingToLoad(dataPath: string, dataPathExists: bool, listing: seq<string>,
                      bodyOf: string -> Option<seq<Element>>)
    requires !dataPathExists || forall i :: 0 <= i < |listing| ==> !IsDocxFile(listing[i])
    ensures LoadedDocuments(dataPath, dataPathExists, listing, bodyOf) == []
  {
    if dataPathExists {
      Sequences.FilterNone(listing, IsDocxFile);
    }
  }
}
