# Ingestion pipeline of ai-agent-rag, modelled in Dafny

The repository builds a retrieval-augmented chat assistant over a knowledge
base of Word documents. This project models its ingestion side: the steps
that turn a directory of `.docx` files into chunks with stable ids in a
Chroma vector store.

- **Reading a Word file** (`docx_loader.py`). The body is a sequence of
  paragraphs and tables.
  - Runs of non-empty stripped paragraphs are merged into text sections, joined with a blank line.
  - Every table ends the pending run.
  - Every table with at least two rows becomes a Markdown table section headed "**Bảng n:**".
  - Each section becomes a document. Its metadata gives the file's basename as `source`, its position as `page`, the section count as `total_pages`, its kind, and `file_type` "docx".
- **Loading** (`load_data.py`, `load_document`). This selects the `.docx` names of the directory listing, skips Office lock files and concatenates the sections of each file.
- **Splitting** (`split_text`). Sections with a table go to a splitter with 2000-character chunks. The others go to one with 1000-character chunks. The regular chunks come first.
- **Saving** (`save_to_chroma`), in four steps:
  - LangChain's `filter_complex_metadata` drops every metadata key whose value is not a str, bool, int or float (None included). Then `clean_metadata` keeps the eight whitelisted keys of what is left.
  - The chunks are sorted by (source, page, has_table, start).
  - Each chunk is numbered `source:file_type:page_N[_table][_ocr]:chunk_K` within its run of equal page ids (`calculate_chunk_ids`).
  - The store receives only the chunks whose id it does not yet hold.

The model follows the code file by file:

| Python | Dafny |
|---|---|
| Python values in metadata | the datatype `PyValues.Value` |
| a metadata dict | `map<string, Value>` |
| a LangChain `Document` | a datatype value |
| the lists the code mutates in place | arrays (`ChunkIds.CalculateChunkIds`, `ChromaSave.CleanChunks`) |
| the loops | methods with loop invariants, each proved equal to a specification function |

The library calls become inputs or parameters:

| library call | in the model |
|---|---|
| the directory listing and `os.path.exists` | inputs |
| python-docx's parse of each file | an input `Option<seq<Element>>`, where `None` means the file could not be opened |
| the text splitter | a function parameter taking its configuration |
| the vector store | the set of ids it already holds, or `None` when there is no database directory |

The main results are the following.

- **Uniqueness for DOCX chunks:** `UniqueIds.DocxChunkIdsUnique` proves ids unique for every chunk whose metadata has the shape the DOCX loader writes.
- **Why sorting matters:** the page id is a one-to-one function of the sort key, so sorting makes every page's chunks contiguous, and contiguous runs get distinct ids.
- **Adding files adds only their chunks:** `Additivity.NewFilesAddOnlyTheirChunks` proves that after a first run, a run over the old files plus new ones adds exactly the new files' chunks, and the old chunks keep their ids.
- **Running twice adds nothing:** `ChromaSave.ReingestAddsNothing` proves that a second run over the same chunks, against the ids the first run stored, writes nothing.
- **Sections are faithful:** `DocxSections.ParagraphsKept` and `DocxSections.TablesKept` show what the DOCX sectioning keeps. It keeps exactly the paragraphs that are non-empty after stripping and the tables that have Markdown, each once and in order, and it invents nothing.

## Model

| member | source | states |
|---|---|---|
| MetadataCleaning.CleanMetadata | load_data.py:17-32 | the result holds exactly the whitelisted keys present in the input; simple values are kept, any other value becomes its string form |
| MetadataCleaning.CleanKeepsNone | load_data.py:19-28 | a present `None` value is of an allowed type and is kept, not dropped |
| MetadataCleaning.CleanedIsClean | load_data.py:22-30 | cleaned metadata has only whitelisted keys and simple values |
| MetadataCleaning.CleanFixesClean | load_data.py:24-30 | cleaning leaves already-clean metadata unchanged |
| MetadataCleaning.CleanIdempotent | load_data.py:17-32 | cleaning twice equals cleaning once |
| MetadataCleaning.IdKeepsClean | load_data.py:229 | writing a string id into clean metadata keeps it clean |
| MetadataCleaning.FilteredComplex | load_data.py:132 | definition of `filter_complex_metadata` on one dictionary; specified by `CleanAfterFilter` and `FilterFixesClean` |
| MetadataCleaning.CleanAfterFilter | load_data.py:132-135 | filtered and then cleaned, metadata keeps exactly its whitelisted keys whose value is a str, bool, int or float, with the value unchanged; no None is left |
| MetadataCleaning.FilterFixesClean | load_data.py:132-135 | clean metadata without None passes both the filter and the cleaner unchanged |
| DocumentLoading.SelectDocxFilesSpec | load_data.py:42-45 | a name is selected iff it is listed, its lower-case form ends with ".docx" and it does not start with "~$"; the selection distributes over concatenation (listing order kept) |
| DocumentLoading.IsDocxFileIgnoresCase | load_data.py:44 | a name and its lower-cased form are selected alike |
| DocumentLoading.LoadedDocuments | load_data.py:34-83 | definition of what `load_document` returns; specified by `LoadDocument`, `LoadedProvenance` and `NothingToLoad` |
| DocumentLoading.LoadDocument | load_data.py:34-83 | the loop returns nothing for a missing directory, else the concatenated sections of the selected files in listing order; files that yield nothing are skipped |
| DocumentLoading.DocxDocumentOrigin | docx_loader.py:42-129 | a section comes only from a file that could be opened, names the file's basename as source and has file type docx |
| DocumentLoading.LoadedProvenance | load_data.py:37-63 | every loaded section comes from an existing directory and a selected listed file, names that file's basename, and is typed docx |
| DocumentLoading.NothingToLoad | load_data.py:37-49 | a missing directory or a listing without selected names loads nothing |
| TextSplitting.SplitText | load_data.py:86-125 | definition of `split_text` over a splitter parameter; specified by `PartitionSpec`, `RegularChunksFirst` and `OneKindOneSplitter` |
| TextSplitting.PartitionSpec | load_data.py:90-91 | the two lists hold exactly the documents with and without a truthy `has_table`, are disjoint, and together are the input as a multiset |
| TextSplitting.PartitionOrder | load_data.py:90-91 | both lists keep the input order: partitioning a concatenation concatenates the partitions |
| TextSplitting.RegularChunksFirst | load_data.py:93-114 | with a splitter that keeps each chunk's `has_table` flag, every chunk after a table chunk is a table chunk |
| TextSplitting.OneKindOneSplitter | load_data.py:93-115 | without table sections only the regular splitter runs on the whole input, and with only table sections only the table splitter |
| ChunkOrder.KeyOf | load_data.py:145-153 | definition of the sort key; specified by `ChromaSave.PreparedKeyOf`, `CleanedStartIsZero` and `UniqueIds.KeyOfDocx` |
| ChunkOrder.CleanedStartIsZero | load_data.py:151 | after cleaning, the key's fourth component is always 0 |
| ChunkOrder.KeyLeTotal | load_data.py:145-153 | the tuple order of sort keys is total |
| ChunkOrder.KeyLeAntisymmetric | load_data.py:145-153 | keys ordered both ways are equal |
| ChunkOrder.KeyLeTransitive | load_data.py:145-153 | the tuple order is transitive |
| ChunkOrder.Sort | load_data.py:145-153 | the sort returns a permutation of its input |
| ChunkOrder.SortSorted | load_data.py:145-153 | the sort's result is ordered by key |
| ChunkOrder.SortStable | load_data.py:145-153 | the sort is stable: the chunks with any given key keep their input order |
| ChunkOrder.SortChunks | load_data.py:144-153 | definition of the `sorted` call; specified by `SortChunksSpec` |
| ChunkOrder.SortChunksSpec | load_data.py:144-153 | the model's sort succeeds iff every chunk has the model's key; the result is then a permutation, sorted and stable |
| ChunkIds.PageId | load_data.py:212-220 | definition of `current_page_id`; specified by `ChunkIdInjective` and `UniqueIds.DocxPageIdInjective` |
| ChunkIds.WithChunkIds | load_data.py:206-231 | definition of what `calculate_chunk_ids` writes; specified by `WithChunkIdsShape` and `CalculateChunkIds` |
| ChunkIds.ChunkIdInjective | load_data.py:220-227 | equal chunk ids have equal page ids and equal indices |
| ChunkIds.RunStart | load_data.py:222-225 | the start of the run of equal page ids that ends at position i |
| ChunkIds.ChunkIndexStep | load_data.py:222-225 | the index is 0 when the page id differs from the previous one, else the previous index plus one |
| ChunkIds.IndexStep | load_data.py:208-228 | one pass of the loop leaves `last_page_id` and `current_chunk_index` equal to the page id and index of the current position |
| ChunkIds.WithChunkIdsShape | load_data.py:211-231 | same length, order and text; only the "id" key is added or replaced; the id is page id + ":chunk_" + index, with the defaults "UNKNOWN_SOURCE", "unknown", 0 and False |
| ChunkIds.CalculateChunkIds | load_data.py:206-231 | the in-place loop writes into every chunk exactly the id of the specification |
| ChunkIds.NumberChunks | load_data.py:208-231 | the loop's invariants: chunks before i rewritten, the rest untouched, and the running state correct |
| ChunkIds.SamePageSameRun | load_data.py:222-225 | when equal page ids are contiguous, indices within a run count up by one: 0..n-1 |
| ChunkIds.ContiguousIdsUnique | load_data.py:207 | when every page id forms one contiguous run, all generated ids are distinct |
| ChunkIds.IdsDistinct | load_data.py:222-227 | two positions of a contiguous page-id sequence get distinct ids |
| ChunkIds.InterleavedPagesCollide | load_data.py:222-227 | without contiguity the ids are not unique: the sequence a, b, a gives its first and last chunk the same id |
| ChromaSave.NewChunksSpec | load_data.py:167-170 | a chunk is kept iff it is in the input and its id is not stored; all stored gives nothing; an empty store gives everything |
| ChromaSave.NewChunksOrder | load_data.py:167-170 | the filter keeps order: it distributes over concatenation |
| ChromaSave.GateClosesBehindItself | load_data.py:163-179 | once the new chunks' ids are added to the store, filtering again yields nothing |
| ChromaSave.FilterChunks | load_data.py:132 | the in-place loop replaces every chunk's metadata by its filtered form |
| ChromaSave.Prepared | load_data.py:131-135 | definition of the filtered and cleaned chunks; keeps the number of chunks; specified by `PreparedSpec` and `PreparedKeyOf` |
| ChromaSave.PreparedSpec | load_data.py:131-135 | a prepared chunk keeps its text and exactly its whitelisted keys with a str, bool, int or float value, unchanged |
| ChromaSave.PreparedKeyOf | load_data.py:132-153 | after filtering and cleaning, the model's key is None iff the source is missing or not a str, or the page is a str that `int()` rejects; a missing or None page reads as 0 |
| ChromaSave.NonePageSortsAsZero | load_data.py:132-151 | a chunk whose page is None gets the key (source, 0, False, 0), because the filter drops the None |
| ChromaSave.CleanAllSpec | load_data.py:134-135 | cleaning keeps every chunk's text; the result is clean; clean chunks are unchanged |
| ChromaSave.CleanChunks | load_data.py:134-135 | the in-place loop replaces every chunk's metadata by its cleaned form |
| ChromaSave.Numbered | load_data.py:132-154 | definition of the sorted and numbered chunks; specified by `NumberedSpec` |
| ChromaSave.NumberedSpec | load_data.py:132-154 | the model's numbering succeeds iff every filtered and cleaned chunk has the model's key, and then yields as many chunks, each with a string id and clean metadata |
| ChromaSave.PermutationKeepsClean | load_data.py:145-153 | sorting clean chunks gives clean chunks |
| ChromaSave.IdsKeepClean | load_data.py:154 | numbering clean chunks gives string ids and clean metadata |
| ChromaSave.Gate | load_data.py:156-202 | definition of the store step; specified by `GateSpec`, `GateReingest` and `ApplyGate` |
| ChromaSave.GateSpec | load_data.py:156-202 | with no database every chunk is created with its ids; otherwise exactly the unseen chunks are added, or nothing when none is unseen; `add_documents` gets ids parallel to the documents; the second cleaning changes nothing |
| ChromaSave.GateReingest | load_data.py:163-182 | after a write, the same numbered chunks against the updated store add nothing |
| ChromaSave.SavePlan | load_data.py:127-202 | definition of the outcome of `save_to_chroma`; specified by `SavePlanSpec`, `ReingestAddsNothing` and `SaveToChroma` |
| ChromaSave.SavePlanSpec | load_data.py:127-202 | the model's `save_to_chroma` fails exactly when some filtered and cleaned chunk has no model key, else it runs the gate on the numbered chunks |
| ChromaSave.ReingestAddsNothing | load_data.py:127-202 | re-ingesting the same chunks after a successful write adds nothing |
| ChromaSave.SaveToChroma | load_data.py:127-202 | the caller's chunks end up filtered and cleaned in place, and the outcome is the specification's plan |
| ChromaSave.NumberSorted | load_data.py:154 | numbering a copy of the sorted chunks in an array yields the specified ids |
| ChromaSave.ApplyGate | load_data.py:156-202 | the branch on the store is the gate's outcome |
| Additivity.SortedIndex | load_data.py:222-225 | in a list sorted by key, the chunk index of position i is the number of earlier chunks with the same key |
| Additivity.NumberedIsCounted | load_data.py:206-231 | on sorted DOCX chunks, each chunk's index counts the earlier chunks with its key |
| Additivity.SortedCountedPermutes | load_data.py:145-153 | because the sort is stable, numbering by key groups after sorting gives the same chunks as before it, up to order |
| Additivity.NumberedCounts | load_data.py:144-154 | for DOCX chunks the numbered chunks are, up to order, the prepared chunks each numbered by the earlier chunks with its key |
| Additivity.NumberingAdditive | load_data.py:144-154 | for files with distinct sources, numbering a + b gives, as a multiset, the numbered chunks of a plus those of b |
| Additivity.IdsApart | load_data.py:212-227 | numbered DOCX chunks with different sources have different ids |
| Additivity.NoSharedIdsAcrossSources | load_data.py:206-231 | the numbered chunks of a and of b share no id when a and b share no source |
| Additivity.GateLetsNewThrough | load_data.py:163-170 | against the ids of the old chunks, the gate keeps exactly the new chunks, as a multiset |
| Additivity.GateAfterFirstRun | load_data.py:163-179 | the second run adds exactly the new chunks with their ids, and every stored id is still one of the chunks' ids |
| Additivity.FirstRunCreates | load_data.py:183-202 | with no database, a run over DOCX chunks creates the store with every numbered chunk and its id |
| Additivity.NewFilesAddOnlyTheirChunks | load_data.py:127-202 | after a first run over a, a run over a + b, where b's sources are new, adds exactly b's numbered chunks and ids, and every id of a's chunks is unchanged |
| UniqueIds.LoaderWritesDocxMetadata | docx_loader.py:109-118 | every DOCX section has a string source, an int page, a bool has_table, file type docx and no used_ocr |
| UniqueIds.CleanedDocxMetadata | load_data.py:22-30 | cleaning keeps that shape and leaves no "start" key |
| UniqueIds.FilteredDocxMetadata | load_data.py:132 | the library filter keeps the DOCX metadata shape |
| UniqueIds.KeyOfDocx | load_data.py:145-153 | such metadata has the sort key (source, page, has_table, 0) |
| UniqueIds.PageIdOfKey | load_data.py:212-220 | the page id of such metadata is determined by its sort key |
| UniqueIds.NoColon | load_data.py:220 | the part of a DOCX page id after the last ':' holds no ':' |
| UniqueIds.PageIdParts | load_data.py:220 | equal DOCX page ids have equal sources and equal page/suffix parts |
| UniqueIds.SuffixParts | load_data.py:218-220 | page numbers followed by "_table" or not are told apart |
| UniqueIds.DocxPageIdInjective | load_data.py:212-220 | distinct DOCX sort keys give distinct page ids |
| UniqueIds.KeyAndPageId | load_data.py:145-153 | a clean DOCX chunk has a key with start 0 and its page id is that key's |
| UniqueIds.SortedDocxContiguous | load_data.py:144-154 | after the sort, every page id of DOCX chunks forms one contiguous run |
| UniqueIds.CleanAllDocx | load_data.py:132-135 | filtered and cleaned DOCX chunks keep their shape, lose "start" and all have sort keys |
| UniqueIds.PermutationKeepsDocx | load_data.py:145-153 | the sort keeps the DOCX shape of every chunk |
| UniqueIds.DocxChunkIdsUnique | load_data.py:144-154 | for DOCX-shaped chunks numbering succeeds and all ids are distinct |
| DocxTables.FitRow | docx_loader.py:22-23 | a data row is padded with "" or truncated to exactly the header width |
| DocxTables.DataCellsShape | docx_loader.py:22-23 | the cells of a data line are the row's cells, then "" up to the header width |
| DocxTables.MarkdownLines | docx_loader.py:15-23 | a table of n >= 2 rows gives n + 1 lines |
| DocxTables.MarkdownLinesShape | docx_loader.py:17-23 | line 0 is the header, line 1 the separator, line i + 1 data row i, each framed "\| ... \|" |
| DocxTables.TableToMarkdown | docx_loader.py:10-25 | fewer than two rows give ""; otherwise the lines joined with "\n" |
| DocxTables.StrippedRows | docx_loader.py:31-33 | every cell holds its stripped text and no cell starts or ends with whitespace any more; rows and cells are kept in order |
| DocxTables.ExtractDocxTable | docx_loader.py:27-37 | the table's stripped rows rendered as Markdown, "" when it has fewer than two rows |
| DocxTables.Markdown | docx_loader.py:10-25 | definition of `table_to_markdown`; specified by `MarkdownLinesShape`, `MarkdownEmptyIff` and `TableToMarkdown` |
| DocxTables.MarkdownEmptyIff | docx_loader.py:12-25 | the Markdown is empty iff the table has fewer than two rows |
| DocxContent.ParaStep | docx_loader.py:60-65 | a paragraph adds its stripped text to the pending run when non-empty |
| DocxContent.FlushStep | docx_loader.py:70-80 | flushing a non-empty run adds one text part joined with "\n\n" and numbers it |
| DocxContent.TableStep | docx_loader.py:82-91 | a table with Markdown adds a part "\n**Bảng n:**\n" + md + "\n" with n counting such tables from 1; an empty one adds nothing |
| DocxContent.TrailingStep | docx_loader.py:93-101 | the trailing run becomes the last text part |
| DocxContent.FlushSection | docx_loader.py:70-80 | the flush keeps the scan state and empties the run |
| DocxContent.AddTable | docx_loader.py:82-91 | adding a table keeps the scan state |
| DocxContent.MakeDocuments | docx_loader.py:104-120 | the loop builds one document per part, in order |
| DocxContent.DocxDocuments | docx_loader.py:42-129 | definition of what `extract_content_from_docx` returns; specified by `ExtractContentFromDocx`, `DocumentLoading.DocxDocumentOrigin` and the `DocxSections` lemmas |
| DocxContent.ExtractContentFromDocx | docx_loader.py:42-129 | the loop yields exactly the specified sections; a file that cannot be opened yields none |
| DocxContent.PendingNonEmpty | docx_loader.py:64-73 | pending paragraphs are non-empty, so a flushed run always has text |
| DocxSections.ClosedText | docx_loader.py:59-101 | the closed sections' paragraphs followed by the pending run are exactly the non-empty stripped paragraphs |
| DocxSections.ClosedTables | docx_loader.py:67-91 | the table sections' Markdown is exactly that of the non-empty tables, in order |
| DocxSections.ParagraphsKept | docx_loader.py:59-101 | the sections hold every non-empty stripped paragraph once, in order |
| DocxSections.TablesKept | docx_loader.py:67-91 | the sections hold every non-empty table once, in order |
| DocxSections.NoTablesOneRun | docx_loader.py:93-101 | a body without tables gives at most one text section |
| DocxSections.ClosedAfterFlush | docx_loader.py:67-91 | after a flush the sectioning of the rest is independent of what came before |
| DocxSections.TableSplits | docx_loader.py:67-91 | every table, even one with empty Markdown, separates the sections before it from those after it |
| DocxSections.PartsAt | docx_loader.py:74-90 | the part at position i renders piece i with the tables before it counted |
| DocxSections.PartShape | docx_loader.py:74-90 | part i has section number i; a text part is its paragraphs joined with "\n\n"; a table part is headed by the count of tables up to and including it |
| DocxSections.PartDocumentShape | docx_loader.py:104-120 | document i has the part's content, the basename as source, page i, the number of parts as total_pages, has_table iff it is a table part, the matching type, file type docx, and no other key |
| DocxSections.PartDocumentClean | docx_loader.py:109-118 | a section's metadata has no used_ocr and passes `filter_complex_metadata` and the cleaning unchanged |
| Strings.StripSpec | docx_loader.py:62 | `strip()` returns a slice of its input without leading or trailing whitespace |
| Strings.StripIdempotent | docx_loader.py:32 | stripping twice equals stripping once |
| Strings.JoinNonEmpty | docx_loader.py:72-73 | joining non-empty paragraphs gives non-empty text |
| Strings.IntToDecimalInjective | load_data.py:220 | `str()` of distinct integers differs |
| Strings.DecimalRoundTrip | load_data.py:227 | the decimal digits of an index read back as that index |
| Strings.Lower | load_data.py:44 | lower-casing keeps the length, leaves no upper-case letter and keeps every other character |
| Strings.LowerIdempotent | load_data.py:44 | lower-casing twice equals lower-casing once |
| PyValues.ParseIntRoundTrip | load_data.py:149 | `int(str(i)) == i` |
| PyValues.Truncate | load_data.py:149 | `int()` of a float truncates toward zero |
| Paths.Basename | docx_loader.py:45 | the basename is the longest suffix without '/' |
| Paths.BasenameOfJoin | load_data.py:54 | the basename of the joined path is the listed name when it holds no '/' |

## Left out

- `api/api.py` is not part of this model. It covers HTTP routing, search and the remote model call.
- Contacting Ollama, computing embeddings and writing the Chroma store are not modelled. The store is only the set of ids it holds.
- `MetadataCleaning.FilteredComplex` follows `filter_complex_metadata` with its default allowed types (str, bool, int, float). `PyValues.Value` has no other simple type, so every other object is a `PyObject` and is dropped.
- The text splitter's algorithm (chunk boundaries, overlap and `start_index`) belongs to LangChain. It is a function parameter; its constants are recorded in `TextSplitting.RegularSplitter` and `TextSplitting.TableSplitter`.
- `TextSplitting.RegularChunksFirst` assumes, through `KeepsTableFlag`, that the splitter copies every chunk's `has_table` from one of its inputs.
- python-docx is not modelled. The body of a file (paragraph texts and table cell texts, in order) is an input. `None` stands for an exception that `extract_content_from_docx` catches, which loses the whole file. An exception while a table's rows or cells are read is caught inside `extract_docx_table` and loses only that table. That case is the input `Tbl([])`, whose Markdown is "", so the file keeps its other sections.
- `os.listdir`, `os.path.exists`, `os.getenv` and the directory paths are inputs.
- `os.path.join` and `os.path.basename` follow POSIX paths. Windows separators are not modelled.
- `clear_database`, the `--reset` and `--test` flags and `main` are not modelled. That includes the cleaning `main` performs before `save_to_chroma`. It turns an object value under a whitelisted key into a string, which the filter then keeps instead of dropping. `ChromaSave.SavePlan` describes `save_to_chroma` called on chunks as they are given.
- Printing, the statistics in `load_document` and `split_text`, and the logging in the `except` branches are not modelled.
- The `TypeError` fallback around `Chroma.from_documents` only changes how the store is called, so it is not modelled.
- Floats carry their `str()` text as part of the value, so `repr` formatting is not modelled. `int()` of NaN or infinity, which raises, is not represented either.
- An object of any other type is only its `str()` text and its truth value.
- Dict insertion order is not modelled. Metadata is a map.
- `Strings.Lower` lower-cases only ASCII letters, while Python's `str.lower` covers all of Unicode.
- `PyValues.ParseInt` accepts only ASCII digits with an optional sign and surrounding whitespace, while Python's `int()` also takes other Unicode digits and underscores between digits.
- `ChunkOrder.KeyOf` gives no key when a chunk's source is missing or not a str. Python builds the key without raising for any source, because `get('source')` returns None for a missing one. It raises only when a comparison meets two sources it cannot order, such as None and a str. When every pair of sources can be compared (all str, all numbers, or all equal, even None), Python sorts without raising, where the model fails. `ChunkOrder.SortChunks`, `ChromaSave.Numbered` and `ChromaSave.SavePlan` inherit this gap, and so do their specifications.
- `ChunkOrder.SortChunks` and `ChunkOrder.SortChunksSpec` fail for such a source where Python may sort, as the `ChunkOrder.KeyOf` line says.
- `ChromaSave.Numbered`, `ChromaSave.NumberedSpec`, `ChromaSave.SavePlan` and `ChromaSave.SavePlanSpec` give `SortFailed` or None for such a source where Python may save, as the `ChunkOrder.KeyOf` line says.
- `Additivity.NewFilesAddOnlyTheirChunks` covers only DOCX-shaped chunks of new files whose sources no old file has. A file that keeps its name but changes its content is not covered. The new chunks are stated as a multiset, not in the order they are added.
- `ChromaSave.SaveToChroma` numbers a copy of the sorted list. In Python the sorted list shares its chunk objects with the caller's list, so the ids also appear in the caller's chunks; this aliasing is not modelled.
- `UniqueIds.DocxChunkIdsUnique` proves uniqueness only for chunks with DOCX-shaped metadata. `ChunkIds.InterleavedPagesCollide` shows that ids can collide once equal page ids are not contiguous.
- The sectioning is proved against a table serialiser given as a parameter. `DocxContent.ExtractContentFromDocx` instantiates it with `DocxContent.TableMarkdown`, the real serialiser.
