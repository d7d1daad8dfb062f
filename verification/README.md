# blob: a verified model of the tree walkers, the batch digestion and the definitions store

blob is a command-line tool that edits a project's source code from natural-language
instructions. Before it asks a language model anything, it walks the project and does
several things with the result:

- renders the project tree;
- digests files and directories into summaries;
- keeps the user's "definitions" in plain text files under `<project>/.blob`.

This project models that sequential core in Dafny and proves what the code promises about it.

## What is modelled

- **The filesystem** is an in-memory tree (`FileTree.Node`).
  - A directory's listing keeps its read order.
  - A listing, an entry or its metadata may be an I/O error.
- **How a Rust call ends** is explicit, as `Common.Outcome`:
  - it returns a value;
  - it panics (an `unwrap` or `expect` on a failure);
  - or it never returns (a loop that spins forever).
- **`tree_iter.dfy`** models the filtered depth-first iterator `TreeIter` (`src/tree.rs`).
  - `src/representation/tree.rs` and `src/representation/tree/iterator.rs` hold the same code and are modelled once.
  - `Peekable<FilteredDir>` is the class `Tree.DirStream`.
  - `TreeIter.Next` is proved against a pure step function on the frames of the stack.
  - The full run of the iterator is proved equal to an independent depth-first description of the tree.
  - The root directory's own `CloseDir` comes last, so a complete run has one more close than opens. The documented example at src/tree.rs:130-141 leaves that close out; `Tree.DocumentedExample` shows the run with it.
- **`filters.dfy`** models the filter set:
  - `FileFilter`;
  - `FilterAggregate`, a left-to-right AND over its filters whose inner errors panic;
  - `GitignoreFilter`.

  `src/representation/tree/filters.rs` is the same code.
- **`print.dfy`** models the tree-art renderer `PrintProcessor` (`src/print.rs`).
  - `TreeRepresentation` in `src/llm_engine/tree_processor.rs` is the same code.
  - `construct` is proved to render exactly the listing of the tree: one line per entry, whose guide segments follow the `dir_has_next` flags.
- **`walker.dfy`** models `src/representation/tree/reader.rs`:
  - `TreeFileWalker`, whose visitor calls are recorded as a sequence;
  - `visit_file_path` / `one_level`, a LIFO work-stack walk that yields every file of a readable tree.
- **`software.dfy`** models `Project::calculate_source`: a LIFO walk that skips the paths git ignores.
  - It emits one typed atom per directory, with that directory's files as children.
  - It yields exactly the directories reachable through non-ignored ancestors.
- **`growth.dfy`** models `Growth`:
  - the per-path payload cache;
  - levels;
  - the level ordering: a stable sort, then an in-place reverse;
  - totals;
  - the 10000-byte truncation of a file for its prompt;
  - `process_file`;
  - `process_dir_results`.
- **`context.dfy`** and **`blob.dfy`** model the two `BlobContextProcessor`s (`src/blob/context.rs`, `src/blob/blob.rs`):
  - file names and paths under `.blob`;
  - the line format `<timestamp>, <definition>`;
  - its parser, with a round-trip theorem;
  - the writes, with the files as a map from path to text.

Timestamps are opaque tokens that carry the two texts blob prints of a moment:

- the date-time of section 5.6 of RFC 3339;
- the compact `%Y%m%d%H%M%S` form.

Parsing a date-time is a parameter of the model.

## Model

| member | source | states |
|---|---|---|
| Text.Split | src/blob/context.rs:259 | splitting a string always gives at least one piece |
| Text.SplitCount | src/structure/growth.rs:87 | a string has one more `split` piece than separators, so `split("/").count() - 1` is the number of `/` |
| Text.SplitPiecesFree | src/blob/context.rs:262 | no piece of a split contains the separator |
| Text.SplitJoin | src/blob/context.rs:160-170 | joining the pieces of a split with the separator gives back the string |
| Text.TrimTrimmed | src/blob/context.rs:265-266 | `trim` leaves no whitespace at either end |
| Text.CountZero | src/blob/context.rs:160-170 | a character occurs zero times exactly when it is absent |
| Paths.FileName | src/print.rs:158-162 | a file name, when there is one, is a real component: not empty, not `.` or `..`, and without `/` |
| Paths.FileNameOfChild | src/print.rs:158-162 | the file name of `dir/name` is `name` for every entry name |
| Paths.Extension | src/structure/growth.rs:65-69 | an extension, when there is one, has no `.` and belongs to a path that has a file name |
| Filters.FilterAggregate.Default | src/representation/filters.rs:42-48 | the default aggregate has no filters and keeps every path |
| Filters.FilterAggregate.Push | src/representation/filters.rs:32-40 | pushing appends the filter at the end, removing and reordering nothing |
| Filters.FilterAggregate.Filter | src/representation/filters.rs:50-58 | the aggregate answers the left-to-right conjunction of its filters |
| Filters.ConjunctionNeverErr | src/representation/filters.rs:53 | an inner error is unwrapped: the aggregate never returns `Err` |
| Filters.ConjunctionKeepsIffAll | src/representation/filters.rs:50-58 | `Ok(true)` exactly when every filter answers `Ok(true)` |
| Filters.ConjunctionRejectsAtFirstFalse | src/representation/filters.rs:50-58 | `Ok(false)` exactly when some filter answers `Ok(false)` and all filters before it answer `Ok(true)`; later filters are not consulted |
| Filters.ConjunctionAppend | src/representation/filters.rs:32-58 | after a push, the aggregate consults the new filter only when the old ones all keep the path |
| Filters.NewGitignoreFilter | src/representation/filters.rs:142-156 | no repository found gives `None`; any other discovery error gives `Some(Err)` with its message; a repository gives `Some(Ok)` |
| Filters.GitignoreAnswer | src/representation/filters.rs:159-166 | panics exactly when the path cannot be canonicalised; otherwise keeps the path exactly when the repository does not ignore it, and passes a query error through |
| Tree.OpenFiltered | src/tree.rs:65-81 | opening a directory stream succeeds exactly when the directory can be read, and streams its listing |
| Tree.Filtered | src/tree.rs:87-108 | the stream of a listing has at most as many items as the listing, and only its last pull can panic or spin |
| Tree.KeptExactly | src/tree.rs:87-108 | an error-free stream yields exactly the listed entries the filter answers `Ok(true)` for |
| Tree.FilteredClean | src/tree.rs:87-108 | with no read or filter errors, the stream is the listing's admitted entries in read order |
| Tree.Reached | src/tree.rs:87-108 | the items the stream reads: the longest prefix of the listing on which the filter neither panics nor spins |
| Tree.FilteredYields | src/tree.rs:87-108 | over any listing, the stream's entries are the admitted entries of the items it reads and its errors are their read and filter errors, once each and in read order, with one more pull when the filter panics or spins |
| Tree.FilteredReturns | src/tree.rs:87-108 | when the filter neither panics nor spins on the listing, every pull returns an entry or an error |
| Tree.FilteredLast | src/tree.rs:87-108 | when the filter panics or spins on an item, that panic or spin is the stream's last pull |
| Tree.FilteredAdmitsOnly | src/tree.rs:58 | over any listing, every entry the stream yields is in the listing and answered `Ok(true)` by the filter |
| Tree.NextPull | src/tree.rs:87-92 | a pull reports the end of the stream exactly when nothing is left |
| Tree.DirStream.Open | src/tree.rs:65-81 | a new stream will deliver exactly the filtered listing |
| Tree.DirStream.FilteredNext | src/tree.rs:87-108 | one pull: the next admitted entry or the next error, skipping rejected entries |
| Tree.DirStream.Peek | src/tree.rs:171-184 | peeking shows the next pull without consuming it |
| Tree.DirStream.Next | src/tree.rs:186-191 | taking consumes exactly one pull |
| Tree.HasNextSibling | src/tree.rs:171-184 | true on a peeked entry, false on exhaustion, never returns on a peeked error; consumes nothing |
| Tree.NextEntry | src/tree.rs:186-205 | consumes exactly one pull; the sibling flag looks at what is left after it |
| Tree.TreeIter.Over | src/representation/tree.rs:120-152 | a new iterator has exactly one frame, the root's stream, and remembers the root path |
| Tree.TreeIter.New | src/representation/tree.rs:120-152 | fails exactly when the root cannot be read, with that error; otherwise starts with the root's frame alone, and `root()` is the given path |
| Tree.TreeIter.Next | src/tree.rs:207-245 | one step as the step function says: an exhausted top frame is popped with `CloseDir`; an empty stack gives `None`; a directory pushes one frame and yields `OpenDir`; a file yields `File`; an unopenable directory yields `Err` and pushes nothing |
| Tree.StepDecreases | src/tree.rs:207-245 | every item yielded makes the remaining frames strictly smaller, so a run ends |
| Tree.ExhaustedExactlyWhenEmpty | src/tree.rs:226-227 | `None` exactly when the stack is empty, and it stays empty |
| Tree.ErrorAfterEntrySpins | src/tree.rs:171-184 | an entry followed by an error spins in the sibling lookahead: the run never ends |
| Tree.IterationIsDepthFirst | src/tree.rs:111-141 | an error-free run yields the depth-first events of the tree, every directory's children right after it, then the root's `CloseDir` |
| Tree.RootClosesLast | src/tree.rs:207-245 | over a complete run, closes are one more than opens, and depth never goes negative before the last close |
| Tree.IterationAdmitsOnly | src/tree.rs:87-108 | every entry of an error-free run was admitted by the filter |
| Tree.RunAdmitsOnly | src/tree.rs:207-245 | from frames holding only admitted entries, every `File` or `OpenDir` event of a run is admitted, whatever errors the run meets |
| Tree.IterationYieldsAdmitted | src/tree.rs:58 | over any root listing, errors and panics included, every `File` or `OpenDir` event the iterator yields names a path the filter answers `Ok(true)` for |
| Tree.DocumentedExample | src/tree.rs:116-141 | the documented tree gives the documented events followed by the root's `CloseDir` |
| Print.GuideShape | src/llm_engine/tree_processor.rs:23-51 | the guide has four characters per flag, and segment `i` depends only on flag `i` and on whether it is the last |
| Print.FileNameFromPath | src/print.rs:158-162 | the last component of the path; panics when there is none |
| Print.PrintProcessor.Build | src/print.rs:51-60 | a new processor has `dir_has_next = [true]` and zero counters |
| Print.PrintProcessor.ConstructEntry | src/print.rs:109-136 | the line is the guide of the flags, the name and one newline |
| Print.PrintProcessor.ConstructDir | src/print.rs:165-182 | retags the top flag with the sibling flag, renders the file name, pushes `true` and counts one directory |
| Print.PrintProcessor.ConstructFile | src/print.rs:202-210 | retags the top flag, keeps the stack length and counts one file |
| Print.PrintProcessor.CloseDir | src/print.rs:184-192 | pops exactly one flag; panics exactly when none is left |
| Print.PrintProcessor.Construct | src/tree.rs:277-293 | concatenates the outputs of the steps in event order and stops at the first error |
| Print.FoldCounts | src/print.rs:165-210 | after a sequence of events, the directory count grows by the opens and the file count by the files |
| Print.ConstructRendersTree | src/print.rs:109-210 | rendering a whole error-free tree gives exactly its listing, empties the stack after the root's close, and counts its directories and files |
| Walker.TreeFileWalker.New | src/representation/tree/reader.rs:49-58 | a new walker has `[true]`, zero counters and no visits |
| Walker.TreeFileWalker.ConstructDir | src/representation/tree/reader.rs:61-79 | retags the top flag, pushes `true`, counts a directory, records one visit `(path, true)` and returns the path |
| Walker.TreeFileWalker.ConstructFile | src/representation/tree/reader.rs:87-97 | retags the top flag, counts a file, records one visit `(path, false)` and returns the path without a newline |
| Walker.TreeFileWalker.CloseDir | src/representation/tree/reader.rs:81-85 | pops one flag; panics exactly when none is left |
| Walker.TreeFileWalker.Construct | src/representation/tree/iterator.rs:205-221 | the outputs of the steps in event order, stopping at the first error |
| Walker.WalkFoldRecords | src/representation/tree/reader.rs:61-97 | over events, the text is their paths in order, the visits are one per entry in order, and the counters count opens and files |
| Walker.WalkFoldNested | src/representation/tree/reader.rs:81-85 | when no prefix closes more than is open, no close panics and the stack ends as deep as the events leave it |
| Walker.WalkerVisitsTree | src/representation/tree/reader.rs:49-97 | walking a whole error-free tree gives the paths of its entries in depth-first order, visits each entry once, and leaves the stack empty |
| Walker.FirstFault | src/representation/tree/reader.rs:26-27 | the first item of a listing that stops the loop, or the listing's length |
| Walker.Level | src/representation/tree/reader.rs:22-35 | one level never grows the work stack beyond the directory it consumed |
| Walker.OneLevel | src/representation/tree/reader.rs:22-35 | pushes every subdirectory up to the first failure and returns the non-directories in read order, or the failure |
| Walker.VisitFilePath | src/representation/tree/reader.rs:37-46 | the stream of the LIFO work-stack walk seeded with the root |
| Walker.WalkYieldsFiles | src/representation/tree/reader.rs:26-31 | every `Ok` item of the walk is a non-directory |
| Walker.VisitFindsEveryFile | src/representation/tree/reader.rs:19-47 | on a readable tree, the walk has no errors and yields every file of the tree exactly once |
| Software.IgnoreAnswer | src/structure/software.rs:53-65 | the ignore query on the canonical path; panics when canonicalisation or the query fails |
| Software.AtomFiles | src/structure/software.rs:81-87 | one `File` atom per file, in read order |
| Software.CalculateSource | src/structure/software.rs:38-117 | the walk's atoms as the work-stack function describes them |
| Software.Source | src/structure/software.rs:50-116 | the walk always ends |
| Software.DirAtomWellBuilt | src/structure/software.rs:89-107 | a directory atom has one child per file, with the file's path, and each payload built by the builder |
| Software.SourceWellBuilt | src/structure/software.rs:94-107 | every atom emitted carries the builder's payloads and only `File` children |
| Software.SourceOfDirs | src/structure/software.rs:69-107 | a walk over directories only emits directory atoms |
| Software.OnlyRootIsFileAtom | src/structure/software.rs:109-112 | the only top-level `File` atom the walk can emit is the root |
| Software.CalculatesVisibleDirs | src/structure/software.rs:50-116 | on a readable tree with a working ignore query, the walk emits exactly one atom per non-ignored directory reachable through non-ignored ancestors, and nothing else |
| Growth.PayloadCache.constructor | src/structure/growth.rs:51 | the cache starts empty |
| Growth.PayloadCache.Payload | src/structure/growth.rs:54-80 | a file's kind, from the cache when present; a miss stores it under the path; a directory gets `""` and the cache is unchanged |
| Growth.Level | src/structure/growth.rs:87 | the level is the number of `/` in the path |
| Growth.ProcessedDirs | src/structure/growth.rs:84-94 | only directory atoms become processed directories, each one kept |
| Growth.ProcessedDirsAppend | src/structure/growth.rs:84-94 | processing keeps the order of the atoms |
| Growth.SortByLevelSorts | src/structure/growth.rs:96 | the sort orders by ascending level and is a permutation |
| Growth.SortByLevelStable | src/structure/growth.rs:96 | the sort is stable: within a level, the input order is kept |
| Growth.Reverse | src/structure/growth.rs:97 | reverses the array in place |
| Growth.ArrangedOrder | src/structure/growth.rs:96-97 | after sort and reverse the levels do not increase, the result is a permutation, and directories of one level are in reverse input order |
| Growth.TotalFilesArranged | src/structure/growth.rs:99 | the total of files does not depend on the order |
| Growth.MaxLevel | src/structure/growth.rs:101 | an upper bound on every level, attained by some directory, and 0 when there is none |
| Growth.MaxLevelArranged | src/structure/growth.rs:101 | the maximum level is that of the first directory after the arrangement |
| Growth.TraversalModules | src/structure/growth.rs:50-108 | panics exactly when the walk panics; otherwise its directories with their levels, deepest first |
| Growth.ByteLenAppend | src/structure/growth.rs:120-124 | the UTF-8 length of a concatenation is the sum of the lengths |
| Growth.TruncationSplitsChar | src/structure/growth.rs:118-128 | 9999 ASCII bytes followed by a two-byte character panic, because byte 10000 is inside that character |
| Growth.Truncate | src/structure/growth.rs:118-128 | the longest prefix within the byte budget: it is a prefix, it fits, the next character does not, and content within the budget is kept whole |
| Growth.TruncateUnique | src/structure/growth.rs:118-128 | every prefix that fits and cannot grow is the truncation |
| Growth.TruncateAgrees | src/structure/growth.rs:118-128 | whenever the slicing does not panic, it gives the truncation |
| Growth.Snippet | src/structure/growth.rs:114-128 | with the intended truncation of the first Findings row: an unreadable file is empty; otherwise the longest prefix of at most 10000 bytes that ends on a character boundary, the whole content when it fits |
| Growth.ProcessFile | src/structure/growth.rs:146-168 | with the intended truncation: `Err` exactly when the completion fails, with its error, returned before hashing; no choices panics; `Ok` exactly when the completion has a first choice and the hash returns, holding the trimmed first choice, the input path and the file's hash |
| Growth.Sections | src/structure/growth.rs:204-207 | one section per result, in input order |
| Growth.FilesBlockInOrder | src/structure/growth.rs:204-208 | no results give an empty block; one gives its section; another result adds a newline and its section at the end |
| Growth.FilesBlockLength | src/structure/growth.rs:204-208 | the block is as long as its sections plus one separator between each two |
| Growth.ProcessDirResults | src/structure/growth.rs:224-249 | returns exactly when the completion has a first choice and the hash returns; keeps the results unchanged and the trimmed first choice |
| Context.AsFilename | src/blob/context.rs:57-63 | `_project.md` for the project and `_self.md` for the self-reference, neither with `/` |
| Context.PathsUnderBlob | src/blob/context.rs:82-113 | definition files are under `<project>/.blob/.definitions`; a mutation directory is `<project>/.blob/.mutations/<compact moment>`; the two never coincide |
| Context.ProjectScriptPath | src/blob/context.rs:115-118 | the script of a project mutation is `script.sh` in the mutation directory |
| Context.LastSegment | src/blob/context.rs:160-170 | the last segment of a path has no `/` |
| Context.DirectoriesOnlyParent | src/blob/context.rs:160-172 | a path without `/` has no directories; otherwise directories, `/` and last segment give back the path |
| Context.SourceFileMutationPaths | src/blob/context.rs:150-158 | the mutated file is written at `<mutation dir>/<file path>` |
| Context.SourceFileInCreatedDir | src/blob/context.rs:150-179 | the directory created first is exactly the one the mutated file is written in |
| Context.DocumentAppend | src/blob/context.rs:306-318 | saving one more definition appends its line |
| Context.Stamped | src/blob/context.rs:302-320 | one definition per input, in order, all with the same moment |
| Context.ParseLine | src/blob/context.rs:261-276 | a line is skipped exactly when it does not split into two comma parts; it is unparsable exactly when it does and its trimmed first part is no moment; a parsed definition is the trimmed second part, comma-free, with the moment of the trimmed first part |
| Context.ParseLines | src/blob/context.rs:259-279 | parsing never spins and gives at most one definition per line |
| Context.RetrieveDefinitions | src/blob/context.rs:244-280 | a file that cannot be opened gives no definitions; otherwise its lines parsed in order |
| Context.ParseLineOfLine | src/blob/context.rs:312-313 | the line written for a storable definition parses back to it |
| Context.DocumentRoundTrip | src/blob/context.rs:259-276 | a file of storable definitions parses back to the same definitions, in order |
| Context.Write | src/blob/context.rs:295-300 | the file after a write: the old text and the data when appending to an existing file, the data alone otherwise |
| Context.StaleDefinitionSurvives | src/blob/context.rs:295-300 | overwriting a longer file without truncation keeps the stale tail: a removed definition is parsed back; the corrected write parses to the new definitions only |
| Context.SaveDefinitions | src/blob/context.rs:282-321 | returns the definitions stamped with one moment, and writes their lines, in order, to the kind's file: appended, or through the intended whole-file write of the second Findings row |
| Context.SaveProjectDefinitions | src/blob/context.rs:323-325 | appends to the project definitions file |
| Context.New | src/blob/context.rs:66-80 | writes the six built-in definitions to the self-reference file through the intended whole-file write of the second Findings row |
| Blob.AsFilename | src/blob/blob.rs:32-38 | the user's definitions live in `user.md` |
| Blob.SaveNewDefinition | src/blob/blob.rs:54-89 | returns the definition with `Some(now)`, appends exactly its line to the kind's file, creating it when missing, and changes no other file |
| Blob.ScriptPathsAgree | src/blob/blob.rs:91-121 | the script goes to `<root>/.blob/.mutations/<compact moment>/script.sh`, where the other processor puts it |
| Blob.WithMoments | src/blob/blob.rs:153-156 | each parsed definition, in order, with `Some` moment |
| Blob.RetrieveDefinitions | src/blob/blob.rs:123-163 | a missing file gives none; otherwise the lines parsed as in the project processor, each with `Some` moment |
| Blob.SaveThenRetrieve | src/blob/blob.rs:54-163 | retrieving after saving gives the definitions already stored followed by the new one |

## Left out

- Hashing is a parameter: `calculate_file_hash` and `calculate_dir_hash` (SHA-256 over file contents) are functions that may panic.
- The completion engine (the HTTP client of the language model) is a parameter that returns an error or a list of choices.
  - The prompt templates and their fixed instructions are not part of this model. The completion is given the path and the text the prompt is built from.
- The orchestration that calls `traversal_modules`, `process_file` and `process_dir_results` is not part of this model: it is asynchronous and talks to the network. The async functions are modelled as sequential.
- Growth.TraversalModules: the totals and the maximum level are computed but not returned, because the source only prints them. Their properties are stated as lemmas.
- Growth.PayloadCache.Payload: the content classifier (`infer::get_from_path`, which panics on an I/O error) is a pure parameter that never fails. `calculate_source` is given the pure payload function; the cache is proved to return the same values.
- `Vec::sort_by` is a library call. It is specified by a stable insertion sort on sequences (`Growth.SortByLevel`); only the reverse is done in place.
- Growth.Snippet: `read_to_string` of a non-UTF-8 file is treated like an unreadable one, as `unwrap_or("")` does. The model has no byte-level encoding.
- Growth.Snippet: uses the intended truncation `Growth.Truncate`, so it does not panic where `get(..upper).unwrap()` does (src/structure/growth.rs:128, first Findings row). `Growth.TruncateAgrees` shows it equals the slicing as written whenever that does not panic.
- Growth.ProcessFile: built on `Growth.Snippet`, so it does not have the panic of src/structure/growth.rs:128 on content whose byte 10000 is inside a character. `Growth.TruncateAsWritten` and `Growth.TruncationSplitsChar` model and exhibit that panic.
- Files are a map from path to text.
  - `create_dir_all`, permissions, `metadata.json` and the serialisation of mutations are not modelled.
  - A failed write is not modelled; the source `unwrap`s it.
- Context.WriteAsWritten: the overwrite counts characters, not UTF-8 bytes. It agrees with the source for ASCII text.
- Context.New: that the self-reference file parses back to the six built-in definitions is not proved. `Context.DocumentRoundTrip` gives it for any storable definitions.
- `read_to_string(...).unwrap()` after a successful open cannot fail in the model: files are Dafny strings, so a file that is not UTF-8 does not arise. `parse_from_rfc3339(...).unwrap()` is modelled through the parse parameter: a line whose moment does not parse panics.
- The visitor function of `TreeFileWalker` and `println!` output have effects the model does not see. The walker records its visits as a sequence.
- The `is_empty()` branch of `construct_dir` (src/print.rs:172-173) is unreachable, because a flag was just pushed. The model renders the file name only.
- `TreeProcessorBuilder::new` and the root line printed by `build` are left out; they are output only.

## Findings

| source | as written | input that shows it | evidently intended | confidence | as-written member | corrected member |
|---|---|---|---|---|---|---|
| src/structure/growth.rs:118-128 | `file_content.get(..upper).unwrap()` slices at byte 10000 and panics when that byte is inside a multi-byte character | a file of 9999 `a` followed by `é` | keep the longest prefix of at most 10000 bytes that ends on a character boundary | not executed | Growth.TruncateAsWritten, Growth.TruncationSplitsChar | Growth.Truncate, Growth.TruncateAgrees |
| src/blob/context.rs:295-300 | `OpenOptions` with `write`, `create` and `append(false)` but no `truncate` overwrites the start of the file and keeps its tail | a `_self.md` holding `T, abcdef\nT, z\n` rewritten with the single definition `a` parses to `a` and `z` | replace the whole file, as `File::create` would | not executed | Context.WriteAsWritten, Context.StaleDefinitionSurvives | Context.Write, Context.DocumentRoundTrip |
