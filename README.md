# A verified model of the compliance scanner backend

This project models the backend of a compliance scanner. The scanner indexes
a GitHub repository's source code and checks it against financial
regulations (RBI circulars, for example). The model covers these parts:

- **Code indexing.** The code parser finds functions and classes. The chunker
  cuts each file into token-bounded chunks. The indexing worker embeds and
  summarises every chunk through a Redis cache and stores the chunks in
  `code_chunks`.
- **Regulation intake.** PDF text is structured into sections and packed into
  paragraph chunks. Pre-chunked JSON regulations are normalised and synced.
  The demo regulation is preloaded at most once. Documents are ingested into
  versioned policy rules. Once corrected (see ## Findings), each rule code
  keeps a single active version.
- **Embeddings and the LLM.** Provider selection, retried calls, the Azure
  fallback models, the embedding cache, and the JSON fallbacks used when a
  completion cannot be read.
- **Compliance analysis.** The rule matcher and the analysis endpoints search
  the code nearest to a regulation chunk, ask the LLM about each close match
  and fold the answers into a verdict. The worker's analysis job stores the
  violations.
- **The multi-agent scan.** Planner, navigator, investigator, judge and Jira
  bot, followed by the scan's lifecycle in `compliance_scans`: running,
  awaiting approval, then completed or failed.
- **Audit cases.** The four-step audit case orchestrator and, once corrected
  (see ## Findings), the report assembled from the case's scans.
- **GitHub integration.** Webhook signature verification, the webhook intake
  with its delivery deduplication and event dispatch, and the App's JWT and
  installation-token cache.
- **Operator-facing endpoints.** The human-reviewer assistant, the
  dashboard's statistics and compliance score, the admin health check and
  regulation upload, and the enumerations and bounds of the API schemas.

Each Postgres table is a class field, a `map` from key to row (or a `seq` of
rows). The Redis server is one class holding string keys, list keys and
expiry times. Methods change these fields the way the SQL statements and
Redis commands do.

The following are parameters of the operations that use them, and the
contracts hold for every value of them:

- the LLM chat completion and the embedding provider;
- the parsing of their replies;
- pgvector's distance;
- the git checkout;
- the clock;
- the rendering of a digest as hexadecimal.

SHA-256, MD5 and HMAC are idealised as collision-free symbolic digests.

The properties proved include:

- chunk coverage and bounds;
- the round trip of the cache layouts;
- that at most one policy rule is active per rule code, once the ingestion is corrected;
- that a webhook delivery already processed changes nothing;
- the scan and audit state machines' reachable states;
- the ordering of findings;
- the bounds of the compliance score.

Each class is proved against specification functions: a method's `ensures`
ties the new state to a function of the old one, and lemmas state what those
functions promise.

## Model

| member | source | states |
|---|---|---|
| Chunker.EstimateTokens | backend/app/services/chunker.py:33-35 | the estimate is the character count divided by 4, rounded down (400 characters give 100) |
| Chunker.SplitChunk | backend/app/services/chunker.py:135-150 | a split piece carries the file's context, its text is its lines joined by newlines, and it spans its start line plus its line count (end exclusive) |
| Chunker.SplitFromCarries | backend/app/services/chunker.py:134-151 | every piece of a split carries the repository, path, language and file hash, and is addressed by the hash of its own text |
| Chunker.SplitFromTiles | backend/app/services/chunker.py:134-151 | the pieces from an offset on start at that offset, end at the unit's last line, and each ends where the next starts with at most `max_tokens // 4` lines |
| Chunker.SplitLarge | backend/app/services/chunker.py:126-153 | splitting fails exactly when `max_tokens // 4` is zero (the `range` step error); otherwise every piece carries the file's context |
| Chunker.SplitTexts | backend/app/services/chunker.py:134-136 | the pieces' texts are the consecutive line groups, each joined by newlines |
| Chunker.PiecesJoin | backend/app/services/chunker.py:130-136 | joining the joined line groups by newlines gives back the joined lines |
| Chunker.SplitLargeJoins | backend/app/services/chunker.py:126-153 | joining the pieces of a split unit with newlines reproduces the unit's text |
| Chunker.SplitLargeTiles | backend/app/services/chunker.py:134-151 | the first piece starts at the unit's start line, the last ends at start plus line count, and consecutive pieces meet without gap or overlap |
| Chunker.SplitLargeChunk | backend/app/services/chunker.py:126-153 | the loop builds exactly the pieces of the split specification |
| Chunker.WindowAt | backend/app/services/chunker.py:162-168 | the window at offset `i` is the 1-based range `i+1 .. min(i+50, n)` and its text is exactly those lines joined |
| Chunker.PlacedEarlier | backend/app/services/chunker.py:162 | a window 50 lines further on is still on the 50-line grid from the earlier offset |
| Chunker.WindowsFromSound | backend/app/services/chunker.py:155-170 | every kept window is a window of the file on the 50-line grid with at least `min_tokens` tokens, and the windows increase without overlap |
| Chunker.WindowKept | backend/app/services/chunker.py:165-168 | a window on the grid is dropped only for being under `min_tokens`: every window with enough tokens is kept |
| Chunker.ChunkLines | backend/app/services/chunker.py:155-170 | the line loop keeps exactly the windows of the specification |
| Chunker.WindowChunk | backend/app/services/chunker.py:107-121 | a fallback chunk carries the file's context and the window's range and text |
| Chunker.WindowChunks | backend/app/services/chunker.py:107-121 | one chunk per kept window, in order, numbered from 0 |
| Chunker.UnitChunk | backend/app/services/chunker.py:84-97 | a unit kept whole carries the file's context and its own start line, end line and text |
| Chunker.UnitStep | backend/app/services/chunker.py:64-97 | one unit fails exactly when it is large enough to split and `max_tokens < 4`; otherwise its chunks carry the file's context |
| Chunker.FromUnits | backend/app/services/chunker.py:63-100 | every chunk made from the units carries the file's context |
| Chunker.ChunkFile | backend/app/services/chunker.py:37-124 | a path with no language mapping gives no chunks; otherwise every chunk carries the language, repository, path and whole-file hash |
| Chunker.ChunkIn | backend/app/services/chunker.py:56-124 | every chunk of a supported file carries the file's context |
| Chunker.AllTinyNoChunks | backend/app/services/chunker.py:63-70 | units found but all under `min_tokens` give no chunks, and the window fallback does not run |
| Chunker.FittingUnitsKept | backend/app/services/chunker.py:64-97 | units between the bounds are kept one chunk each, in order, with their own range and text |
| Chunker.NoFailureWithRoom | backend/app/services/chunker.py:73-82 | with `max_tokens >= 4` no split fails |
| Chunker.UnitsOnly | backend/app/services/chunker.py:60-100 | when the extractor found units the result comes from those units alone |
| Chunker.SameTextSameHash | backend/app/services/chunker.py:29-31 | two chunks have equal chunk hashes exactly when their texts are equal |
| Chunker.ChunkUnit | backend/app/services/chunker.py:65-97 | one pass of the unit loop computes the unit's step |
| Chunker.ChunkUnits | backend/app/services/chunker.py:64-100 | the unit loop computes the units' chunks, stopping at the first split that raises |
| Chunker.ChunkFileMethod | backend/app/services/chunker.py:37-124 | the method computes exactly the chunk-file specification |
| CodeParser.FileName | backend/app/services/code_parser.py:186 | the file name is the path's tail after its last `/` and holds no `/` |
| CodeParser.LastDot | backend/app/services/code_parser.py:186 | the position found holds a dot and no later character is a dot; none means the name has no dot |
| CodeParser.Suffix | backend/app/services/code_parser.py:186 | a non-empty suffix starts with a dot and has at least one character after it |
| CodeParser.LanguageFromExtension | backend/app/services/code_parser.py:186-201 | a language is found exactly when the lower-cased suffix is one of the 12 mapped suffixes, and it is that suffix's language |
| CodeParser.NoSuffixNoLanguage | backend/app/services/code_parser.py:186-201 | a path without a suffix has no language |
| CodeParser.ParseFile | backend/app/services/code_parser.py:203-224 | parsing gives None exactly when the language is unknown, and otherwise the placeholder module node with the language and the content |
| CodeParser.MatchKeyword | backend/app/services/code_parser.py:243-249 | a captured name is non-empty, made of word characters, and the line starts with the keyword |
| CodeParser.MatchHeader | backend/app/services/code_parser.py:243-249 | a header is found with a listed keyword and that keyword's name; none is found only when no keyword matches |
| CodeParser.PyEndFrom | backend/app/services/code_parser.py:252-260 | the end is the first later non-blank, non-comment line indented no deeper than the header, or the end of the file |
| CodeParser.CountChar | backend/app/services/code_parser.py:290 | a character count is at most the string's length |
| CodeParser.JsEndFrom | backend/app/services/code_parser.py:290-298 | the end is the line after the first line at which the brace balance from the header drops to 0 or below, or the end of the file |
| CodeParser.EndOf | backend/app/services/code_parser.py:250-298 | a unit ends after its opening line and no later than the end of the file |
| CodeParser.TagsAmong | backend/app/services/code_parser.py:235-240 | a tag is kept exactly when it is a listed keyword found in the lower-cased content |
| CodeParser.UnitAt | backend/app/services/code_parser.py:245-280 | a line opens a unit exactly when its stripped text matches a header; the unit starts on that 1-based line, ends inside the file, its text is exactly its lines, and it carries the file's tags |
| CodeParser.Opened | backend/app/services/code_parser.py:245-247 | each line is examined once and opens the unit that line defines |
| CodeParser.SomesFrom | backend/app/services/code_parser.py:268 | every collected unit comes from some line |
| CodeParser.SomesHas | backend/app/services/code_parser.py:268 | every unit a line opens is collected, no later than its own position |
| CodeParser.SomesLength | backend/app/services/code_parser.py:268 | there are no more units than lines |
| CodeParser.SomesIncrease | backend/app/services/code_parser.py:250 | units come out in strictly increasing start-line order, each inside the file |
| CodeParser.UnitsInFile | backend/app/services/code_parser.py:242-317 | every extracted unit starts at a header line, lies inside the file, has exactly its lines as text and carries the file's tags; the units are in start-line order |
| CodeParser.HeaderOpensUnit | backend/app/services/code_parser.py:245-250 | every header line opens a unit starting on that line, nested definitions included |
| CodeParser.OtherLanguagesNoUnits | backend/app/services/code_parser.py:242-317 | languages other than Python, JavaScript and TypeScript yield no units |
| CodeParser.CollectTags | backend/app/services/code_parser.py:235-240 | the tag loop computes the file's semantic tags |
| CodeParser.PythonUnitEnd | backend/app/services/code_parser.py:251-260 | the indentation search computes the Python unit's end |
| CodeParser.ScriptUnitEnd | backend/app/services/code_parser.py:290-298 | the brace-counting search computes the script unit's end |
| CodeParser.ScanLine | backend/app/services/code_parser.py:245-280 | one step of the line scan computes what that line opens |
| CodeParser.ScanLines | backend/app/services/code_parser.py:244-316 | the scan appends exactly the units the lines open, in order |
| CodeParser.ExtractFunctionsFallback | backend/app/services/code_parser.py:227-317 | the method computes exactly the extracted units |
| CodeParser.ByName | backend/app/services/code_parser.py:357 | the name map has exactly the names of the old units |
| CodeParser.ByNameLastWins | backend/app/services/code_parser.py:357 | under a repeated name, the last unit with that name wins |
| CodeParser.Classify | backend/app/services/code_parser.py:359-369 | a unit is unchanged exactly when an old unit of its name has the same text, modified (with the old text's hash) exactly when the text differs, and added (hash None) exactly when no old unit has its name |
| CodeParser.ChangesCases | backend/app/services/code_parser.py:336-375 | unknown language gives `"unknown"` and no chunks; otherwise one entry per new unit; no old content marks all added with a None hash; identical content marks all unchanged; any other old content gives `"modified"` |
| CodeParser.MarkEach | backend/app/services/code_parser.py:346-352 | the loop writes the same delta into every chunk |
| CodeParser.ClassifyEach | backend/app/services/code_parser.py:359-369 | the loop classifies every new unit against the old units by name |
| CodeParser.ParseFileChanges | backend/app/services/code_parser.py:319-375 | the method computes exactly the delta specification for the path's language |
| CodeParser.FindHardcodedThresholds | backend/app/services/code_parser.py:105-111 | a constant is kept exactly when its name contains limit, max, min or threshold in any case, and its value is unchanged |
| CodeParser.ThresholdsIdempotent | backend/app/services/code_parser.py:105-111 | filtering the thresholds again changes nothing |
| CodeParser.Pairs | backend/app/services/code_parser.py:116-119 | each call of a file is paired with that file's name, in order |
| CodeParser.OverridesAreCallers | backend/app/services/code_parser.py:112-120 | a known function is reported exactly when some file calls it, with one file name per call in iteration order |
| CodeParser.FlowGraph.constructor | backend/app/services/code_parser.py:2-5 | a new graph has no nodes, edges or imports |
| CodeParser.FlowGraph.AddNode | backend/app/services/code_parser.py:7-8 | the node is added to the node set, and re-adding is a no-op |
| CodeParser.FlowGraph.AddEdge | backend/app/services/code_parser.py:10-11 | the edge is appended, duplicates kept in insertion order |
| CodeParser.FlowGraph.AddImport | backend/app/services/code_parser.py:13-14 | the import is added to the import set, and re-adding is a no-op |
| PdfProcessor.DigitRun | backend/app/services/pdf_processor.py:59 | the run is the longest prefix of ASCII digits |
| PdfProcessor.SkipDot | backend/app/services/pdf_processor.py:59 | skipping an optional dot stays inside the line |
| PdfProcessor.NumberEnd | backend/app/services/pdf_processor.py:59 | a section number is found exactly when the line starts with a digit, and it is non-empty |
| PdfProcessor.HeadingOf | backend/app/services/pdf_processor.py:59-85 | a heading has a non-empty number the line starts with and a title of at least two characters, starting with a capital letter, that runs to the end of the line |
| PdfProcessor.Close | backend/app/services/pdf_processor.py:74-79 | closing yields one section when a heading is open and none otherwise |
| PdfProcessor.HeadingsOf | backend/app/services/pdf_processor.py:75-79 | each section contributes its number and title, in order |
| PdfProcessor.ScanHeadings | backend/app/services/pdf_processor.py:64-90 | the saved sections plus the open heading are exactly the heading lines seen so far, in order |
| PdfProcessor.SectionsAreHeadings | backend/app/services/pdf_processor.py:45-101 | one section per heading line, in order of the headings; lines before the first heading never form a section |
| PdfProcessor.NoHeadingNoSections | backend/app/services/pdf_processor.py:61-98 | text with no heading line gives no sections |
| PdfProcessor.StepBody | backend/app/services/pdf_processor.py:65-90 | a blank line is skipped and any other non-heading line is collected, stripped, under the open section |
| PdfProcessor.ScanAllSnoc | backend/app/services/pdf_processor.py:64 | scanning one more line is one more step of the loop |
| PdfProcessor.BodyLinesSnoc | backend/app/services/pdf_processor.py:65-90 | the body lines of a longer block are those of the shorter block plus the new line when it is not blank |
| PdfProcessor.ScanBody | backend/app/services/pdf_processor.py:64-90 | after a block without headings, the open section has collected exactly the block's non-blank stripped lines and nothing else changed |
| PdfProcessor.ScanBodyStep | backend/app/services/pdf_processor.py:64-90 | one more non-heading line extends the collected body lines |
| PdfProcessor.ScanSnocBody | backend/app/services/pdf_processor.py:64-90 | a non-heading line at the end of any scan is collected when non-blank and changes nothing else |
| PdfProcessor.LastSection | backend/app/services/pdf_processor.py:72-98 | the last heading's section has that heading's number and title, and its content is the non-blank stripped lines after it joined by newlines; earlier sections are those of the text before it |
| PdfProcessor.ScanLinesClean | backend/app/services/pdf_processor.py:64-90 | every collected line is non-empty and contains no newline |
| PdfProcessor.ContentOneParagraph | backend/app/services/pdf_processor.py:64-98 | section content never contains a blank line (`"\n\n"`), so it is a single paragraph |
| PdfProcessor.SavedOneParagraph | backend/app/services/pdf_processor.py:74-79 | every saved section's content contains no blank line |
| PdfProcessor.CloseOneParagraph | backend/app/services/pdf_processor.py:93-98 | the last section's content contains no blank line |
| PdfProcessor.ScanLine | backend/app/services/pdf_processor.py:65-90 | one pass of the line loop performs one scan step |
| PdfProcessor.StructureSectionsMethod | backend/app/services/pdf_processor.py:45-101 | the line loop computes exactly the sections of the specification |
| PdfProcessor.PackStepKeeps | backend/app/services/pdf_processor.py:140-159 | one paragraph keeps the packing invariant: the groups concatenate back to the paragraphs seen and every group fits |
| PdfProcessor.PackInvariant | backend/app/services/pdf_processor.py:140-159 | after all paragraphs the packing invariant holds |
| PdfProcessor.GroupsCover | backend/app/services/pdf_processor.py:135-168 | the groups concatenate back to the paragraphs, and each group fits the limit (separators not counted) or is a single paragraph |
| PdfProcessor.ChunkSection | backend/app/services/pdf_processor.py:121-168 | every chunk of a section carries the section's number and title, and indexes run 0, 1, 2, ... without gaps |
| PdfProcessor.Numbered | backend/app/services/pdf_processor.py:143-168 | one chunk per group, its paragraphs joined by `"\n\n"`, numbered in order from 0 |
| PdfProcessor.ChunkTexts | backend/app/services/pdf_processor.py:143-168 | the texts of the chunks, one per chunk, in order |
| PdfProcessor.SmallSectionOneChunk | backend/app/services/pdf_processor.py:125-131 | a section whose content fits is exactly one chunk with index 0 and the content as its text |
| PdfProcessor.LargeSectionJoins | backend/app/services/pdf_processor.py:133-168 | joining an oversized section's chunk texts with `"\n\n"` reproduces its content |
| PdfProcessor.OversizedSectionOneChunk | backend/app/services/pdf_processor.py:133-168 | an oversized section without paragraph breaks stays one oversized chunk |
| PdfProcessor.ChunksFromSections | backend/app/services/pdf_processor.py:121-168 | every chunk carries the number and title of some input section |
| PdfProcessor.PackSection | backend/app/services/pdf_processor.py:134-168 | the paragraph loop computes exactly the chunks of the oversized section |
| PdfProcessor.ChunkSectionsMethod | backend/app/services/pdf_processor.py:103-171 | the section loop computes the chunks of each section, sections in input order |
| RegulationProcessor.ProcessPdf | backend/app/services/regulation_processor.py:159-196 | empty bytes raise ValueError; with document intelligence off the result is empty; with it on the missing integration raises NotImplementedError |
| RegulationProcessor.ProcessEntry | backend/app/services/regulation_processor.py:226-245 | an entry is skipped exactly when its text (from `"text"`, else `"chunk_text"`) is falsy; a made chunk has that non-empty text, the entry's position as index, the SHA-256 of the text as hash, and the given rule id and source document |
| RegulationProcessor.ChunksFrom | backend/app/services/regulation_processor.py:225-252 | every failure inside the loop surfaces as ValueError |
| RegulationProcessor.MadeInOrderCons | backend/app/services/regulation_processor.py:226-245 | a made chunk in front of chunks made in order from later entries is still in order |
| RegulationProcessor.ChunksFromSound | backend/app/services/regulation_processor.py:226-248 | every output chunk is made by its own entry at the entry's position, and the output keeps the input order |
| RegulationProcessor.ProcessJsonChunks | backend/app/services/regulation_processor.py:198-252 | empty input raises ValueError("chunks_data cannot be empty"), non-list input raises ValueError("chunks_data must be a list"), and every failure is a ValueError |
| RegulationProcessor.EntryKept | backend/app/services/regulation_processor.py:226-245 | every entry with non-empty text yields a chunk carrying its original position, so skipped entries leave gaps in the indexes |
| RegulationProcessor.RejectedIffRaises | backend/app/services/regulation_processor.py:225-252 | the whole input is rejected exactly when some entry raises |
| RegulationProcessor.ChunksStep | backend/app/services/regulation_processor.py:226-245 | a skipped entry adds nothing and a made one moves its chunk to the processed prefix |
| RegulationProcessor.ProcessJsonChunksMethod | backend/app/services/regulation_processor.py:198-252 | the entry loop computes exactly the specification |
| RegulationProcessor.Quoted | backend/app/services/regulation_processor.py:21-28 | each listed name is rendered once, in order |
| RegulationProcessor.Describes | backend/app/services/regulation_processor.py:21-33 | one description per missing step, in order |
| RegulationProcessor.MissingSteps | backend/app/services/regulation_processor.py:18-28 | the keyword step is missing exactly when keywords were given and no summary contains any of them, ignoring case; the sequence step is missing exactly when a sequence was given and its space-joined text is not in the `"\n---\n"`-joined summaries, ignoring case |
| RegulationProcessor.AnalyzeFlow | backend/app/services/regulation_processor.py:2-39 | one summary per chunk in order; the verdict is the LLM's answer to the macro prompt over the joined summaries; the explanation is `"Violation: "` plus the missing steps joined by `", "` when any is missing, otherwise empty |
| RegulationProcessor.Summarize | backend/app/services/regulation_processor.py:10-13 | the loop gives one summary per chunk, in order |
| RegulationProcessor.PieceInJoin | backend/app/services/regulation_processor.py:14 | each summary appears as a slice of the joined context block |
| RegulationProcessor.FoundInPiece | backend/app/services/regulation_processor.py:14-25 | text found in one lower-cased summary is found in the lower-cased context block |
| RegulationProcessor.SequenceInOneSummary | backend/app/services/regulation_processor.py:22-28 | a sequence found inside one summary is not reported missing |
| RegulationProcessor.MoreSummariesKeepKeywords | backend/app/services/regulation_processor.py:18-21 | more summaries never make a found keyword missing |
| RegulationProcessor.MergeFacts | backend/app/services/regulation_processor.py:91-98 | the merged keys are the static, config (only for config paths) and embedding keys; embedding facts override config facts, which override static constants |
| RuleModel.AfterFirstIf | backend/app/models/rule_model.py:26 | the text after the first case-sensitive `"if"` is a suffix of the input, and the whole input when there is no `"if"` |
| RuleModel.NormalizeRuleText | backend/app/models/rule_model.py:13-40 | the raw text is kept unchanged, keywords are the `\b\w+\b` tokens, actor, object and outcome are empty, action is `"must"` exactly when the lower-cased text contains `"must"`, and without any `"if"` the condition is empty |
| RuleModel.ConditionAfterIf | backend/app/models/rule_model.py:25-26 | with a lower-case `"if"` the condition is the stripped text after its first occurrence (substring, not word) |
| RuleModel.ConditionWholeText | backend/app/models/rule_model.py:25-26 | when only `"If"`/`"IF"` occur, the condition is the whole stripped text |
| RuleModel.MustAnyCase | backend/app/models/rule_model.py:27-28 | `"must"` in any letter case sets the action |
| RuleModel.WordRunStops | backend/app/models/rule_model.py:23 | a token ends at the first non-word character |
| RuleModel.WordRunPrefix | backend/app/models/rule_model.py:23 | the first token of a text is unaffected by what follows it |
| RuleModel.WordsSeparated | backend/app/models/rule_model.py:23 | the tokens on both sides of a non-word character are kept in order with duplicates: the tokens of the whole are those of each side in turn |
| Embeddings.NewService | backend/app/services/embeddings.py:21-48 | the service is built exactly for Azure with endpoint and key, or OpenAI with a key; otherwise an embedding provider error; the model is the Azure deployment or `text-embedding-ada-002`, and `text-embedding-3-small` for OpenAI |
| Embeddings.TextHash | backend/app/services/embeddings.py:50-53 | the text hash is the SHA-256 of the UTF-8 encoded text |
| Embeddings.TextHashIdentifies | backend/app/services/embeddings.py:50-53 | equal text hashes mean equal texts, so the hash is deterministic and identifies its text |
| Embeddings.DirectFrom | backend/app/services/embeddings.py:94-142 | the direct API succeeds exactly when some model answers, and its answer is that of the first answering model in the order ada-002, 3-small, 3-large; it raises only after all fail |
| Embeddings.EmbedAttempt | backend/app/services/embeddings.py:70-92 | a working deployment's answer is returned; for Azure a failed deployment call falls back to the direct API; every failure becomes an embedding provider error |
| Embeddings.EmbedText | backend/app/services/embeddings.py:55-92 | `embed_text` succeeds exactly when one of at most three attempts does, with that attempt's vector; otherwise it fails with the last attempt's provider error |
| Embeddings.SlicesCover | backend/app/services/embeddings.py:165-166 | the slices cover the texts exactly once, in order, each non-empty and at most `batch_size` long |
| Embeddings.BatchFrom | backend/app/services/embeddings.py:162-181 | a failure inside the slice loop is an embedding provider error |
| Embeddings.BatchAttempt | backend/app/services/embeddings.py:162-181 | a batch size of zero raises (range step), a negative one gives no slices and an empty result, and every failure is a provider error |
| Embeddings.EmbedBatchMeaning | backend/app/services/embeddings.py:144-181 | empty input gives `[]` without a provider call; otherwise the batch succeeds exactly when one of three attempts does, and fails with a provider error |
| Embeddings.BatchLength | backend/app/services/embeddings.py:165-177 | when the provider answers one vector per text, the result has one vector per input text |
| Embeddings.BatchConcatenates | backend/app/services/embeddings.py:165-177 | a successful attempt is the concatenation, in slice order, of the provider's answers to the consecutive slices |
| Embeddings.Answers | backend/app/services/embeddings.py:168-172 | one answer per slice |
| Embeddings.BatchAttemptMethod | backend/app/services/embeddings.py:162-181 | the slice loop computes one batch attempt |
| Embeddings.EmbedBatchMethod | backend/app/services/embeddings.py:144-181 | the method computes exactly the batch specification, retries included |
| Embeddings.PrefixesDisjoint | backend/app/services/embeddings.py:183-199 | keys under the default `"emb"` prefix never equal the worker cache's `"embedding:"` keys, so the two caches share no entry |
| Embeddings.ToJson | backend/app/services/embeddings.py:216-218 | a vector is stored as a JSON list of the same length |
| Embeddings.VectorOf | backend/app/services/embeddings.py:208 | a decoded vector has one number per list item |
| Embeddings.VectorRoundTrip | backend/app/services/embeddings.py:208-218 | a vector stored as JSON reads back as itself |
| Embeddings.Fresh | backend/app/services/embeddings.py:222-224 | the uncached path answers exactly what `embed_text` answers |
| Embeddings.HitAsksNoProvider | backend/app/services/embeddings.py:201-208 | a truthy cached value is returned decoded, stores nothing, and does not depend on the provider |
| Embeddings.MissThenHit | backend/app/services/embeddings.py:210-220 | after a miss that the provider answers, the next lookup returns the same value from the cache without asking the provider |
| Embeddings.StoresOnlyAnswers | backend/app/services/embeddings.py:210-220 | something is stored only when the provider answered, and it is the dumped answer |
| Embeddings.EmbedWithCache | backend/app/services/embeddings.py:183-224 | the result and the cache write follow the cache-or-compute rule: key `"{prefix}:{hash}"`, a write with the embedding TTL only on an answered miss, every other key and the lists unchanged |
| Hashing.Utf8Injective | backend/app/services/embeddings.py:53 | different texts have different UTF-8 encodings, so hashing the encoding keeps texts apart |
| Hashing.Utf8Ascii | backend/app/services/embeddings.py:53 | ASCII text encodes to one byte per character, each byte its code point |
| JobQueue.CachedEmbedding | backend/app/workers/job_queue.py:23-36 | a lookup gives None exactly when `"embedding:{hash}"` is absent; otherwise the decoded JSON, or the raw value when it does not decode |
| JobQueue.CachedSummary | backend/app/workers/job_queue.py:47-57 | a summary lookup gives None exactly when `"nl_summary:{hash}"` is absent |
| JobQueue.NamespacesDisjoint | backend/app/workers/job_queue.py:27-63 | embedding keys and summary keys never coincide |
| JobQueue.EmbeddingRoundTrip | backend/app/workers/job_queue.py:23-45 | after caching an embedding, looking it up gives it back decoded |
| JobQueue.EmbeddingKeepsSummaries | backend/app/workers/job_queue.py:38-57 | caching an embedding leaves every cached summary as it was |
| JobQueue.SummaryRoundTrip | backend/app/workers/job_queue.py:47-66 | after caching a summary, looking it up gives it back unchanged, and cached embeddings are untouched |
| JobQueue.JobQueue.constructor | backend/app/workers/job_queue.py:68-79 | a new queue has no async client and no jobs |
| JobQueue.JobQueue.EnqueueIndexingJob | backend/app/workers/job_queue.py:99-133 | one `index_repository` job is appended with its arguments, its result kept for a day and its failure for a week; its id names that job |
| JobQueue.JobQueue.EnqueueAnalysisJob | backend/app/workers/job_queue.py:135-162 | one `analyze_compliance` job is appended with its scan, repository and rule ids and a one-day result retention |
| JobQueue.JobQueue.ConnectAsync | backend/app/workers/job_queue.py:81-90 | a client is created only when there is none; an existing one is kept |
| JobQueue.JobQueue.DisconnectAsync | backend/app/workers/job_queue.py:92-97 | the client is dropped |
| JobQueue.JobQueue.GetCachedEmbedding | backend/app/workers/job_queue.py:23-36 | the lazily connected client answers the embedding lookup, and an unreachable server raises |
| JobQueue.JobQueue.CacheEmbedding | backend/app/workers/job_queue.py:38-45 | the embedding is stored as JSON under `"embedding:{hash}"` with a one-week expiry, every other key unchanged |
| JobQueue.JobQueue.GetCachedSummary | backend/app/workers/job_queue.py:47-57 | the lazily connected client answers the summary lookup with the stored text as is |
| JobQueue.JobQueue.CacheSummary | backend/app/workers/job_queue.py:59-66 | the summary is stored raw under `"nl_summary:{hash}"` with a one-week expiry, every other key unchanged |
| Database.Upsert | backend/app/models/database.py:152-155 | an upsert adds the key when new and keeps every existing key |
| Database.UpsertAllKeys | backend/app/models/database.py:157-178 | after a batch upsert the table holds exactly the old keys and those of the batch |
| Database.UpsertAllKeeps | backend/app/models/database.py:152-178 | whatever a refresh does not touch stays as it was for every row already stored |
| Database.UpsertAllLastWins | backend/app/models/database.py:152-178 | a refreshed column holds the value of the last batch item with that key |
| Database.CodeChunkUpsertKeepsContent | backend/app/models/database.py:146-178 | re-inserting a stored code chunk changes nothing but its embedding and summary |
| Database.CodeChunkUpsertLastWins | backend/app/models/database.py:146-178 | a code chunk's embedding and summary are those of the last chunk in the batch with its hash |
| Database.CodeChunkTable.constructor | backend/app/models/database.py:140-141 | a new code-chunk table is empty |
| Database.CodeChunkTable.InsertBatch | backend/app/models/database.py:144-178 | the batch is upserted by `chunk_hash` in order and its length is returned |
| Database.CodeChunkTable.SearchSimilar | backend/app/models/database.py:181-204 | at most `top_k` distinct rows of the repository (or of all repositories), in ascending distance, none left out that is nearer than one returned |
| Database.DistanceColumn | backend/app/models/database.py:188 | the distance column is NULL exactly for rows stored without an embedding, and otherwise the distance |
| Database.RegulationChunkUpsertKeepsContent | backend/app/models/database.py:225-255 | re-inserting a stored regulation chunk changes nothing but its embedding and summary |
| Database.RegulationChunkTable.constructor | backend/app/models/database.py:221-222 | a new regulation-chunk table is empty |
| Database.RegulationChunkTable.InsertBatch | backend/app/models/database.py:225-255 | the batch is upserted by `chunk_hash` in order and its length is returned |
| Database.RegulationChunkTable.GetByRuleId | backend/app/models/database.py:258-266 | exactly the rule's chunks, each once, in `chunk_index` order |
| Database.RegulationChunkTable.ListAllRules | backend/app/models/database.py:269-273 | every stored rule id exactly once, strictly increasing |
| Ordering.SortedStrings | backend/app/models/database.py:271 | every string of the set exactly once, strictly increasing in code-point order |
| Ordering.LeastString | backend/app/models/database.py:271 | the least string of a non-empty set, below every other member |
| Database.IdsDisjoint | backend/app/models/database.py:324-335 | violations counted under two different severities are different violations |
| Database.SeverityCountsBounded | backend/app/models/database.py:317-338 | critical + high + medium + low never exceeds the scan's total |
| Database.IdsWithin | backend/app/models/database.py:321-335 | a severity's violations are among the scan's |
| Database.Stamped | backend/app/models/database.py:352-384 | a batch's rows keep every column given and take consecutive fresh ids and the insertion time |
| Database.ViolationTable.constructor | backend/app/models/database.py:348-349 | a new violations table is empty |
| Database.ViolationTable.InsertBatch | backend/app/models/database.py:352-384 | every violation becomes a new row under a fresh id, duplicates included, old rows unchanged, the count returned |
| Database.ViolationTable.GetByScan | backend/app/models/database.py:387-405 | exactly the scan's violations (of the severity when a non-empty one is given), highest score first, newest first among equal scores |
| Database.ScanTable.constructor | backend/app/models/database.py:276-277 | a new scans table is empty |
| Database.ScanTable.Create | backend/app/models/database.py:280-295 | a fresh scan row, `"running"`, of type `"full"` unless given, with zero counts |
| Database.ScanTable.UpdateStatus | backend/app/models/database.py:298-314 | status, result and error are overwritten; `completed_at` is set for completed or failed and cleared otherwise; an unknown id changes nothing |
| Database.ScanTable.UpdateViolationCounts | backend/app/models/database.py:317-338 | the scan's five counts are those of the violations table, and the four severities sum to at most the total |
| Database.NestedId | backend/app/models/database.py:424-425 | a missing key gives NULL, and a value there that is not an object raises AttributeError |
| Database.WebhookEventTable.constructor | backend/app/models/database.py:408-409 | a new events table is empty |
| Database.WebhookEventTable.Insert | backend/app/models/database.py:412-427 | a new event is stored unprocessed; a known one is left as it was; a non-object installation or repository raises |
| Database.WebhookEventTable.IsProcessed | backend/app/models/database.py:430-434 | true exactly for a stored event whose flag is set |
| Database.WebhookEventTable.MarkProcessed | backend/app/models/database.py:437-443 | the event is flagged processed and stamped; an unknown id changes nothing |
| Database.InstallationTable.constructor | backend/app/models/database.py:23-24 | a new installations table is empty |
| Database.InstallationTable.Upsert | backend/app/models/database.py:27-52 | a new installation is stored whole; an existing one keeps account id, app id and target type and takes the rest |
| Database.InstallationTable.Delete | backend/app/models/database.py:73-77 | the row goes, and the result says whether there was one |
| Database.RepoTable.constructor | backend/app/models/database.py:80-81 | a new repos table is empty |
| Database.RepoTable.Upsert | backend/app/models/database.py:84-109 | a new GitHub id gets a fresh repo id and a row with branch `"main"` by default; an existing one keeps its id and takes name, full name, branch and clone URL |
| Database.RepoTable.GetByGithubId | backend/app/models/database.py:118-123 | the row stored under the GitHub id, or None |
| Database.RepoTable.GetById | backend/app/models/database.py:111-116 | the row with that repo id when there is one, or None exactly when none has it |
| Database.RepoTable.UpdateSyncStatus | backend/app/models/database.py:125-138 | the repository's sync time, commit and counts are set and no other row changes |
| RegulationSync.RuleIdInjective | backend/app/services/regulation_sync.py:44 | when neither regulator has an underscore, the rule id determines regulator and document type |
| RegulationSync.RuleIdCollides | backend/app/services/regulation_sync.py:44 | with an underscore in the regulator, two different syncs write under one rule id |
| RegulationSync.Source | backend/app/services/regulation_sync.py:49-54 | non-empty data is normalised by `process_json_chunks` from its `"chunks"`; otherwise a URL raises NotImplementedError and no URL raises ValueError |
| RegulationSync.DataBeforeUrl | backend/app/services/regulation_sync.py:49-52 | with data given the URL makes no difference and no NotImplementedError can arise |
| RegulationSync.WithText | backend/app/services/regulation_sync.py:110-112 | the number of `embed_text` calls is at most the number of chunks |
| RegulationSync.Embedded | backend/app/services/regulation_sync.py:103-116 | on success every chunk is kept in order and carries an embedding exactly when its text is non-empty |
| RegulationSync.EmbeddedStep | backend/app/services/regulation_sync.py:110-114 | an empty chunk is skipped, a failing call aborts, and a successful one attaches its answer |
| RegulationSync.EmbeddedCalls | backend/app/services/regulation_sync.py:110-114 | each embedding is the answer to the call made for its own chunk, the calls numbered in order |
| RegulationSync.EmbeddedFails | backend/app/services/regulation_sync.py:103-116 | the embedding step fails exactly when some call for a chunk with text fails |
| RegulationSync.PrefixedStep | backend/app/services/regulation_sync.py:110-114 | one loop pass extends the done rows and the call count as the specification of the whole step says |
| RegulationSync.GenerateEmbeddings | backend/app/services/regulation_sync.py:103-116 | the loop computes the specified result and, when it succeeds, makes one call per chunk with text |
| RegulationSync.VectorLiteral | backend/app/services/regulation_sync.py:127-128 | the literal is bracketed |
| RegulationSync.Shown | backend/app/services/regulation_sync.py:128 | each value is rendered on its own, in order |
| RegulationSync.VectorLiteralReads | backend/app/services/regulation_sync.py:127-128 | splitting the literal's inside on commas gives back the rendered values |
| RegulationSync.RowOf | backend/app/services/regulation_sync.py:125-147 | the embedding column is set exactly when the chunk has a non-empty embedding, the summary is not written, the hash is the hex digest |
| RegulationSync.RowsOf | backend/app/services/regulation_sync.py:124-147 | one row per chunk, in order |
| RegulationSync.StoreChunks | backend/app/services/regulation_sync.py:118-150 | every chunk is upserted in order with the embedding-only refresh, and the count of chunks is returned |
| RegulationSync.StoreKeepsAllButEmbedding | backend/app/services/regulation_sync.py:136-138 | a chunk stored before keeps every column but its embedding, its summary included |
| RegulationSync.StoreTakesNewEmbedding | backend/app/services/regulation_sync.py:136-138 | a chunk's stored embedding is the one computed for it, unless a later chunk shares its hash |
| RegulationSync.PlannedRowsEmbedded | backend/app/services/regulation_sync.py:44-57 | every stored row belongs to the sync's rule id and has an embedding |
| RegulationSync.SyncRegulation | backend/app/services/regulation_sync.py:25-73 | the table changes only when every step succeeds, any failure is re-raised, and the result reports the rule id and the stored count |
| PreloadedRegulations.ChunkHash | backend/app/services/preloaded_regulations.py:183-185 | the hash is the first 16 characters of the hex SHA-256 of `"{rule_id}-{idx}-{text[:100]}"` |
| PreloadedRegulations.ChunkHashSeesFirst100 | backend/app/services/preloaded_regulations.py:184 | two texts agreeing on their first 100 characters get the same hash at the same position |
| PreloadedRegulations.HashInputsDistinct | backend/app/services/preloaded_regulations.py:184 | chunks at different positions hash different inputs, so only the 16-character truncation can make them collide |
| PreloadedRegulations.NumberAt | backend/app/services/preloaded_regulations.py:184 | in the hash input the position is a run of digits right after the rule id and its dash, ended by a dash |
| PreloadedRegulations.ChunkRow | backend/app/services/preloaded_regulations.py:188-214 | the inserted row belongs to the demo rule and holds the chunk's text, its position and its hash |
| PreloadedRegulations.StoredAdds | backend/app/services/preloaded_regulations.py:172-225 | the loop only adds rows, all of the demo rule, and `inserted_count` is the number it added, at most one per chunk |
| PreloadedRegulations.ChunkCountPositive | backend/app/services/preloaded_regulations.py:69 | a stored chunk of the rule makes the `chunk_count` subquery positive |
| PreloadedRegulations.StoredNew | backend/app/services/preloaded_regulations.py:172-225 | `inserted_count` is the number of new hashes, and stored rows are kept |
| PreloadedRegulations.StoredLeavesChunk | backend/app/services/preloaded_regulations.py:172-225 | a load that inserted a chunk leaves a chunk of the rule behind |
| PreloadedRegulations.StoredNothing | backend/app/services/preloaded_regulations.py:172-225 | a load that inserted nothing left the chunk table as it was |
| PreloadedRegulations.UpsertPolicy | backend/app/services/preloaded_regulations.py:148-169 | the upsert on `(rule_code, version)` adds the demo rule's version 1 when missing and otherwise replaces only its spec; other rules are untouched |
| PreloadedRegulations.Store.constructor | backend/app/services/preloaded_regulations.py:48-49 | the store starts from the given policy and chunk tables |
| PreloadedRegulations.Store.StoreChunks | backend/app/services/preloaded_regulations.py:172-225 | the loop embeds and inserts each chunk, skipping a failing one, and counts the inserted ones; the policy table is untouched |
| PreloadedRegulations.Store.EnsureRegulationLoaded | backend/app/services/preloaded_regulations.py:51-113 | a loaded rule is reported `"already_loaded"` with nothing written; otherwise a missing PDF raises FileNotFoundError with nothing written, or the PDF is processed and `"newly_loaded"` reported; a load that stored chunks leaves the rule loaded |
| PreloadedRegulations.LoadTwice | backend/app/services/preloaded_regulations.py:66-113 | a load that stored chunks is not repeated, while one that stored none into a table without the rule's chunks is |
| PreloadedRegulations.ChunksQuery | backend/app/services/preloaded_regulations.py:278-294 | a falsy limit or offset adds no clause; the limit binds `$2` and the offset `$2` or `$3` depending on whether a limit came first |
| RegulationIngestion.ContentDigest | backend/app/services/regulation_ingestion.py:146-149 | a text is hashed as its UTF-8 encoding, bytes as they are |
| RegulationIngestion.TextDigests | backend/app/services/regulation_ingestion.py:146-149 | a text and its UTF-8 bytes hash alike, and two texts hash alike exactly when they are equal |
| RegulationIngestion.Fill | backend/app/services/regulation_ingestion.py:92-96 | the prompt carries at most the first 15000 characters of the text, the title and the regulator, each in its slot |
| RegulationIngestion.FillSeesOnlyLimit | backend/app/services/regulation_ingestion.py:93 | texts agreeing on their first 15000 characters give the same prompt |
| RegulationIngestion.ReplaceAll | backend/app/services/regulation_ingestion.py:101 | a text without the pattern is returned unchanged |
| RegulationIngestion.NoBacktickNoFence | backend/app/services/regulation_ingestion.py:101 | a fence cannot occur in a text without backticks |
| RegulationIngestion.PlainReplyKept | backend/app/services/regulation_ingestion.py:101 | a reply without backticks is decoded as it came |
| RegulationIngestion.NoFenceInPrefix | backend/app/services/regulation_ingestion.py:101 | no fence starts inside a backtick-free prefix |
| RegulationIngestion.FindsFirst | backend/app/services/regulation_ingestion.py:101 | the replacement starts at the first occurrence |
| RegulationIngestion.FencedReplyCleaned | backend/app/services/regulation_ingestion.py:101 | a body wrapped in a json code block comes out unwrapped |
| RegulationIngestion.SemanticText | backend/app/services/regulation_ingestion.py:131 | the embedded text starts with "actor must action " and ends with the constraint, or with "None" when it is absent |
| RegulationIngestion.NonSpaceRun | backend/app/services/regulation_ingestion.py:196 | the leading run of non-whitespace is maximal |
| RegulationIngestion.Tokens | backend/app/services/regulation_ingestion.py:196 | `split()` gives non-empty whitespace-free tokens |
| RegulationIngestion.RunEndsBeforeOccurrence | backend/app/services/regulation_ingestion.py:196 | a whitespace-free occurrence cannot straddle the end of the first token |
| RegulationIngestion.OccurrenceInToken | backend/app/services/regulation_ingestion.py:194-196 | an occurrence of a whitespace-free text lies inside one token |
| RegulationIngestion.MarkerInToken | backend/app/services/regulation_ingestion.py:194-196 | a reference containing `RBI-` has a token containing it |
| RegulationIngestion.FirstWith | backend/app/services/regulation_ingestion.py:194-196 | the first token containing the marker, or None exactly when no token contains it |
| RegulationIngestion.GeneratedCode | backend/app/services/regulation_ingestion.py:198-200 | a generated code is the regulator, `-RULE-` and a suffix of at most six characters |
| RegulationIngestion.RuleCodeAsWritten | backend/app/services/regulation_ingestion.py:188-200 | a reference containing `RBI-` gives its first word, whatever that word is; otherwise a generated code, the index playing no part |
| RegulationIngestion.RuleCode | backend/app/services/regulation_ingestion.py:188-200 | a reference containing `RBI-` gives a whitespace-free token of it that carries the marker; otherwise the generated code |
| RegulationIngestion.NonSpaceRunOf | backend/app/services/regulation_ingestion.py:196 | a whitespace-free word followed by whitespace or nothing is the leading run |
| RegulationIngestion.TokensOfWord | backend/app/services/regulation_ingestion.py:196 | such a word is the first token |
| RegulationIngestion.TwoTokens | backend/app/services/regulation_ingestion.py:196 | two words joined by a space split into those two words |
| RegulationIngestion.ProseReferenceMisread | backend/app/services/regulation_ingestion.py:194-196 | a reference such as "See RBI-MD-KYC" gives "See" as written and the marked token when corrected |
| RegulationIngestion.InsertDocument | backend/app/services/regulation_ingestion.py:179-186 | the insert succeeds exactly when seven values are bound, and otherwise raises InterfaceError |
| RegulationIngestion.StoreDocumentAsWritten | backend/app/services/regulation_ingestion.py:178-186 | with six values for seven placeholders every document insert raises |
| RegulationIngestion.StoreDocument | backend/app/services/regulation_ingestion.py:178-186 | with the hash bound, the row holds the title, regulator, URL, content hash and status |
| RegulationIngestion.ActiveCode | backend/app/services/regulation_ingestion.py:203 | a row has an active code exactly when it is active, and it is its rule code |
| RegulationIngestion.FindActiveFrom | backend/app/services/regulation_ingestion.py:202-205 | the first active row of the code from a position on, or None when none follows |
| RegulationIngestion.FindActive | backend/app/services/regulation_ingestion.py:202-205 | an active row of the code, or None exactly when there is none |
| RegulationIngestion.ActiveIsFound | backend/app/services/regulation_ingestion.py:202-205 | with one active row per code, that row is the one found |
| RegulationIngestion.RuleStepAsWritten | backend/app/services/regulation_ingestion.py:118-137 | the new row gets version one more than the active row's, or 1, before the embedding is asked for; a failed embedding stops with that row written; a success stores the vector and supersedes the old active row when the new one is active |
| RegulationIngestion.RuleStep | backend/app/services/regulation_ingestion.py:118-137 | with the embedding asked for first, a failure leaves the tables as they were and a success does what the written step does |
| RegulationIngestion.EmbedFailureLeavesTwoActive | backend/app/services/regulation_ingestion.py:126-137 | as written, an active new version whose embedding fails leaves two active rows of one code |
| RegulationIngestion.StepKeepsSingleActive | backend/app/services/regulation_ingestion.py:118-137 | the corrected step keeps at most one active row per code whatever the embedding service answers |
| RegulationIngestion.DraftKeepsVersion | backend/app/services/regulation_ingestion.py:119-127 | a draft does not move the version: the active ingest after it gets the same number |
| RegulationIngestion.Ingested | backend/app/services/regulation_ingestion.py:108-137 | corrected (see ## Findings): storing the extracted rules in order keeps at most one active row per code; as written a failed embedding leaves two rows active (RegulationIngestion.EmbedFailureLeavesTwoActive) |
| RegulationIngestion.IngestStepKeepsSingleActive | backend/app/services/regulation_ingestion.py:108-137 | one stored rule keeps at most one active row per code |
| RegulationIngestion.IngestedNext | backend/app/services/regulation_ingestion.py:108-137 | rule `n` is coded, embedded by call `call + n` and stored after the ones before it |
| RegulationIngestion.IngestedStops | backend/app/services/regulation_ingestion.py:139-142 | after the first failure the later rules change nothing |
| RegulationIngestion.IngestedDone | backend/app/services/regulation_ingestion.py:108-142 | stopping at the end or at the first failure stores what all the rules would |
| RegulationIngestion.AfterReply | backend/app/services/regulation_ingestion.py:90-144 | corrected (see ## Findings): a failed completion is re-raised and an undecodable reply raises ValueError, neither touching the tables; success answers with the document id and keeps at most one active row per code; as written a failed embedding leaves two rows active (RegulationIngestion.EmbedFailureLeavesTwoActive) |
| RegulationIngestion.PolicyStore.constructor | backend/app/services/regulation_ingestion.py:50 | the store starts with no documents, rules or vectors |
| RegulationIngestion.PolicyStore.StoreRule | backend/app/services/regulation_ingestion.py:207-229 | the rule row, its vector and the superseding update are those of a successful step |
| RegulationIngestion.PolicyStore.StoreNth | backend/app/services/regulation_ingestion.py:108-137 | one loop pass stores rule `i` as the specification of the loop says |
| RegulationIngestion.PolicyStore.StoreRules | backend/app/services/regulation_ingestion.py:108-142 | corrected (see ## Findings): the loop stores the rules in order, stops at the first failure and keeps one active row per code; as written a failed embedding leaves the old and the new row active (RegulationIngestion.EmbedFailureLeavesTwoActive) |
| RegulationIngestion.PolicyStore.StoreReply | backend/app/services/regulation_ingestion.py:100-144 | the reply is cleaned, decoded and its rules stored as specified |
| RegulationIngestion.PolicyStore.IngestDocument | backend/app/services/regulation_ingestion.py:52-144 | corrected (see ## Findings): the document row is written first and kept, then the rules stored and the answer follow the completion's reply; as written the document insert is refused for every document (RegulationIngestion.StoreDocumentAsWritten) |
| RuleMatcher.LowestIn | backend/app/services/rule_matcher.py:75-80 | among the first `n` rows, a row of the rule with the lowest chunk index, or None exactly when there is none |
| RuleMatcher.RuleText | backend/app/services/rule_matcher.py:72-85 | the text of a chunk of the rule with the lowest `chunk_index`; a rule without chunks is exactly the ValueError case |
| RuleMatcher.SearchCode | backend/app/services/rule_matcher.py:87-110 | a failing embedding is raised, a negative `LIMIT` is refused, and otherwise the answer is the first at most `top_k` nearest chunks |
| RuleMatcher.FindingOf | backend/app/services/rule_matcher.py:139-156 | the finding always names the chunk's file and lines; a decoded object keeps all its other keys and gains the similarity; anything else gives `"unclear"` with confidence 0 and no similarity |
| RuleMatcher.Analyses | backend/app/services/rule_matcher.py:50-55 | one finding per chunk on success |
| RuleMatcher.AnalysesPointwise | backend/app/services/rule_matcher.py:50-55 | the loop succeeds exactly when every chunk's analysis does, and then each finding is its chunk's own, in order |
| RuleMatcher.Verdicts | backend/app/services/rule_matcher.py:163 | one verdict per finding, each the finding's `"verdict"` |
| RuleMatcher.AggregateVerdict | backend/app/services/rule_matcher.py:158-174 | `"unclear"` exactly for no findings, `"non_compliant"` exactly when one is non-compliant, `"compliant"` exactly when all are, `"partial"` otherwise |
| RuleMatcher.AggregateIsOrderFree | backend/app/services/rule_matcher.py:158-174 | the verdict depends only on the multiset of verdicts |
| RuleMatcher.CheckRule | backend/app/services/rule_matcher.py:21-70 | a missing rule, a failing embedding or completion is raised; otherwise the result counts every analysed chunk, aggregates their verdicts and returns the first five findings |
| RuleMatcher.AnalyzeAll | backend/app/services/rule_matcher.py:50-55 | the loop computes each chunk's analysis in order and stops at the first failure |
| RuleMatcher.AnalysesStop | backend/app/services/rule_matcher.py:50-55 | a failure among the first `n` chunks is the failure of the whole loop |
| PipelineAgents.PromptText | backend/app/services/langgraph_agents.py:113-129 | each prompt starts with its template's fixed opening |
| PipelineAgents.Initial | backend/app/services/langgraph_agents.py:360-376 | a scan starts with no plan, matches, investigation, verdict, remediation, decision, tickets, completion or current agent |
| PipelineAgents.PlanOf | backend/app/services/langgraph_agents.py:134-140 | an undecodable reply gives the fallback plan; a decoded non-object fails at `.get`; a decoded object is the plan unless its tasks have no length |
| PipelineAgents.PlanStage | backend/app/services/langgraph_agents.py:105-143 | the planner succeeds exactly when the completion and the plan do, and changes only the plan and the current agent |
| PipelineAgents.Chars | backend/app/services/langgraph_agents.py:162 | iterating a string gives its characters, one string each |
| PipelineAgents.Strings | backend/app/services/langgraph_agents.py:162 | a list of strings is iterated as those strings |
| PipelineAgents.TasksOf | backend/app/services/langgraph_agents.py:155-162 | no tasks key gives none; a list of strings gives those strings; a string gives its characters; an object gives each of its keys once; any other value cannot be iterated and is a TypeError |
| PipelineAgents.FallbackPlanTask | backend/app/services/langgraph_agents.py:137-138 | the fallback plan runs the single task "Check implementation" |
| PipelineAgents.Above | backend/app/services/langgraph_agents.py:175-182 | the matches are exactly the rows whose similarity exceeds 0.7, each tagged with its task |
| PipelineAgents.NavigationExact | backend/app/services/langgraph_agents.py:152-189 | the navigator succeeds exactly when every task's embedding does; unmatched tasks are exactly those whose query returned no rows; every match exceeds 0.7 and belongs to a task that had rows |
| PipelineAgents.NavigationStepExact | backend/app/services/langgraph_agents.py:162-187 | one more task keeps that description of the matches and unmatched tasks |
| PipelineAgents.Navigate | backend/app/services/langgraph_agents.py:162-187 | the loop over the tasks computes the specified navigation |
| PipelineAgents.KeepAbove | backend/app/services/langgraph_agents.py:175-182 | the loop over one task's rows keeps exactly the rows above the threshold |
| PipelineAgents.NavigateStage | backend/app/services/langgraph_agents.py:152-189 | the navigator stage computes the specified stage |
| PipelineAgents.NavigatorStage | backend/app/services/langgraph_agents.py:152-189 | the navigator changes only the matches and the current agent |
| PipelineAgents.EvidencePointwise | backend/app/services/langgraph_agents.py:205-234 | the investigator succeeds exactly when every examined match's completion does, and then records one evidence item per match, in order |
| PipelineAgents.UndecodableIsUnknown | backend/app/services/langgraph_agents.py:233-234 | an undecodable reply is evidence of status `unknown` with confidence 0 at the match's path |
| PipelineAgents.Examined | backend/app/services/langgraph_agents.py:205-234 | the evidence loop computes the specified evidence |
| PipelineAgents.OverallStatus | backend/app/services/langgraph_agents.py:236-237 | compliant exactly when every item is implemented (so for no evidence), non-compliant exactly when not so and one is missing, partial otherwise |
| PipelineAgents.Objects | backend/app/services/langgraph_agents.py:236 | the evidence items are objects, or `.get` raises AttributeError |
| PipelineAgents.InvestigatorStage | backend/app/services/langgraph_agents.py:198-242 | at most the first ten matches are examined, the status is the overall status of their evidence, and only the investigation and the current agent change |
| PipelineAgents.InvestigateStage | backend/app/services/langgraph_agents.py:198-242 | the investigator stage computes the specified stage |
| PipelineAgents.Confidences | backend/app/services/langgraph_agents.py:260 | every item has a summable confidence, defaulting to 0.5, or the sum fails |
| PipelineAgents.MissingFindings | backend/app/services/langgraph_agents.py:267 | the findings of exactly the missing items, in order; a missing item without a finding is a KeyError |
| PipelineAgents.MissingReason | backend/app/services/langgraph_agents.py:268 | the reason joins the first three missing findings, and a finding that is not a string is a TypeError |
| PipelineAgents.ReasonQuotesThree | backend/app/services/langgraph_agents.py:268 | findings past the third do not change the reason |
| PipelineAgents.Judge | backend/app/services/langgraph_agents.py:256-275 | the verdict is compliant or non-compliant exactly when the status is, and partial otherwise; the confidence is the mean and the count the number of items; the failures are exactly those of the sum, the missing findings and the join |
| PipelineAgents.CheckerStage | backend/app/services/langgraph_agents.py:251-277 | the checker changes only the final verdict and the current agent |
| PipelineAgents.Sliced | backend/app/services/langgraph_agents.py:299 | slicing works exactly on strings and lists, a string giving its prefix, and anything else is a TypeError |
| PipelineAgents.IssueRecord | backend/app/services/langgraph_agents.py:298-307 | an issue has a title, description, file and priority |
| PipelineAgents.IssueOf | backend/app/services/langgraph_agents.py:298-307 | an issue is titled "Fix: " and the first 80 characters of the finding, is high priority for a missing control and medium otherwise, and names the item's file |
| PipelineAgents.UntitledIssue | backend/app/services/langgraph_agents.py:299 | an item without a finding gets the title "Fix: Compliance issue" |
| PipelineAgents.DraftStepKeeps | backend/app/services/langgraph_agents.py:296-307 | one more evidence item is drafted exactly when it needs an issue |
| PipelineAgents.IssuesPointwise | backend/app/services/langgraph_agents.py:294-307 | exactly one issue per missing or partial item, in order, and a failure exactly when such a finding cannot be sliced |
| PipelineAgents.DraftIssues | backend/app/services/langgraph_agents.py:296-307 | the loop drafts the specified issues |
| PipelineAgents.JiraStage | backend/app/services/langgraph_agents.py:286-313 | issues only for a non-compliant or partial verdict; approval is always required; only the remediation, the approval flag and the current agent change |
| PipelineAgents.DraftStage | backend/app/services/langgraph_agents.py:286-313 | the Jira stage computes the specified stage |
| PipelineAgents.TicketIdsDistinct | backend/app/services/langgraph_agents.py:322 | tickets created in the same second differ by their index |
| PipelineAgents.TicketsStepMeaning | backend/app/services/langgraph_agents.py:321-324 | one more issue still fails exactly when an issue is untitled and otherwise numbers its ticket after the others |
| PipelineAgents.TicketsNumbered | backend/app/services/langgraph_agents.py:321-324 | one ticket per issue, numbered from 0 in order, and a failure exactly when an issue has no sliceable title |
| PipelineAgents.CreateTicketIds | backend/app/services/langgraph_agents.py:321-324 | the loop creates the specified ticket ids |
| PipelineAgents.CreateTickets | backend/app/services/langgraph_agents.py:315-328 | only the ticket ids and the completion time change, and they are set exactly when every issue is titled |
| PipelineAgents.Approved | backend/app/services/langgraph_agents.py:380-385 | the decision is `approved` and edited issues replace the drafted ones only when there are some and a remediation exists |
| PipelineAgents.ApprovalTickets | backend/app/services/langgraph_agents.py:380-385 | approving edited issues creates one ticket per approved issue, numbered in order |
| PipelineAgents.ScanFrom | backend/app/services/langgraph_agents.py:345-358 | a failing agent surfaces as a RuntimeError |
| PipelineAgents.Step | backend/app/services/langgraph_agents.py:69-93 | a failing agent surfaces as a RuntimeError |
| PipelineAgents.ScanUnfold | backend/app/services/langgraph_agents.py:345-358 | a failing agent ends the scan with its error; a successful one hands its state to the next agent |
| PipelineAgents.Trail | backend/app/services/langgraph_agents.py:72-77 | each agent that succeeds records `running` then `completed`, in graph order |
| PipelineAgents.TrailNext | backend/app/services/langgraph_agents.py:72-77 | the next agent's two rows extend the trail |
| PipelineAgents.ScanAwaitsApproval | backend/app/services/langgraph_agents.py:345-358 | a completed scan ends at the Jira bot awaiting approval, for the same scan and repository |
| PipelineAgents.Execute | backend/app/services/langgraph_agents.py:66-67 | the `k`-th agent's execute computes its specified stage |
| PipelineAgents.ComplianceScanOrchestrator.constructor | backend/app/services/langgraph_agents.py:334-343 | the orchestrator keeps its scan, repository and chunk and has recorded nothing |
| PipelineAgents.ComplianceScanOrchestrator.Run | backend/app/services/langgraph_agents.py:69-93 | `running` is recorded, then `completed` with the new state, or `failed` and a RuntimeError |
| PipelineAgents.ComplianceScanOrchestrator.RunScan | backend/app/services/langgraph_agents.py:360-378 | the result is the five agents run in order; a success records every agent's two rows, a failure stops at the failing agent with its `failed` row last |
| PipelineAgents.ComplianceScanOrchestrator.ApproveAndCreateTickets | backend/app/services/langgraph_agents.py:380-385 | the approved state's tickets are created as specified and no execution is recorded |
| ComplianceScanner.Started | backend/app/services/compliance_scanner.py:30-36 | the inserted row is `running`, for the repository and the chunk's `rule_id` or `UNKNOWN` |
| ComplianceScanner.StartOutcome | backend/app/services/compliance_scanner.py:41-76 | a failed pipeline marks the row `failed` and nothing else; a successful one saves its results, waits for approval when it requires it and is completed otherwise |
| ComplianceScanner.RunPipeline | backend/app/services/compliance_scanner.py:39-43 | a fresh orchestrator runs the specified pipeline |
| ComplianceScanner.StartedScanAwaitsApproval | backend/app/services/compliance_scanner.py:41-76 | a started scan never ends `completed` directly: it waits for approval, or is `failed` |
| ComplianceScanner.Restored | backend/app/services/compliance_scanner.py:161-178 | the rebuilt state keeps only the ids and the drafted remediation |
| ComplianceScanner.Approve | backend/app/services/compliance_scanner.py:135-202 | an unknown scan or one not waiting for approval is a ValueError and changes nothing; an approval records `approved`, the ticket ids, `completed` and the time |
| ComplianceScanner.ApprovalNumbersTickets | backend/app/services/compliance_scanner.py:160-194 | approving creates one ticket per issue (the edited ones when given), numbered in order, and fails exactly when an issue is untitled |
| ComplianceScanner.SecondApprovalRejected | backend/app/services/compliance_scanner.py:157-158 | a scan is approved at most once: a second approval is rejected and changes nothing |
| ComplianceScanner.Declined | backend/app/services/compliance_scanner.py:218-225 | declining records `declined`, `completed` and the time on that row only, with no existence or status check |
| ComplianceScanner.DeclinedNotApprovable | backend/app/services/compliance_scanner.py:157-158 | a declined scan can no longer be approved |
| ComplianceScanner.DeclineAfterApproval | backend/app/services/compliance_scanner.py:205-231 | declining after an approval overwrites the decision but keeps the tickets |
| ComplianceScanner.ScanLogsFrom | backend/app/services/compliance_scanner.py:248 | a positive start drops that many entries (all of them past the end); otherwise every entry is kept |
| ComplianceScanner.ScanLogsAgainstRange | backend/app/services/compliance_scanner.py:248 | for a non-negative start this is the Redis range from it, while a negative start differs from a range counted from the end |
| ComplianceScanner.ComplianceScans.constructor | backend/app/services/compliance_scanner.py:30-36 | the table starts empty |
| ComplianceScanner.ComplianceScans.StartScan | backend/app/services/compliance_scanner.py:14-78 | the new row ends as the pipeline's outcome specifies, and the scan id is returned or the pipeline's error raised |
| ComplianceScanner.ComplianceScans.Finish | backend/app/services/compliance_scanner.py:41-76 | the row is updated with the pipeline's results or marked `failed` |
| ComplianceScanner.ComplianceScans.ApproveRemediation | backend/app/services/compliance_scanner.py:135-202 | the reply and the new table are those the approval specifies |
| ComplianceScanner.ComplianceScans.DeclineRemediation | backend/app/services/compliance_scanner.py:205-231 | the row is declined as specified, and the reply says `declined` while the row is stored `completed` |
| ComplianceScanner.GetScanLogsFrom | backend/app/services/compliance_scanner.py:234-248 | the scan's decoded log entries from the start index on, or none when Redis is down |
| AuditOrchestration.StepsDistinct | backend/app/services/orchestrator.py:27-32 | the four workflow steps are distinct and every step is among them |
| AuditOrchestration.NewCase | backend/app/services/orchestrator.py:51-73 | a new case is `running` at the first step, nothing completed, every step pending, with `options or {}` and no results |
| AuditOrchestration.RemoveFirst | backend/app/services/orchestrator.py:358-359 | removing an absent step changes nothing, a present one shortens the list by one, starting with the first occurrence |
| AuditOrchestration.RemoveCount | backend/app/services/orchestrator.py:358-359 | removal takes exactly one occurrence away |
| AuditOrchestration.FirstPendingIndex | backend/app/services/orchestrator.py:362-366 | every step before the index is completed and the one at it is not |
| AuditOrchestration.NextStep | backend/app/services/orchestrator.py:362-366 | the next step is a workflow step not completed, or None exactly when all are completed |
| AuditOrchestration.FindNextStep | backend/app/services/orchestrator.py:362-366 | the loop finds the specified next step |
| AuditOrchestration.FirstPendingIs | backend/app/services/orchestrator.py:362-366 | the first pending index is the first step not completed |
| AuditOrchestration.Marked | backend/app/services/orchestrator.py:336-378 | the step is completed once, removed from pending, its result written to `{step}_result`, and the first step not completed becomes current; status and approval are untouched |
| AuditOrchestration.MarkTwice | backend/app/services/orchestrator.py:356-359 | marking a step twice completes it once and, with at most one pending occurrence, changes nothing more |
| AuditOrchestration.MarkInOrder | backend/app/services/orchestrator.py:336-378 | completing the next step in order keeps the steps in order and makes the one after it current |
| AuditOrchestration.ProgressInOrder | backend/app/services/orchestrator.py:274-277 | with `n` steps completed in order the progress is `25n` percent, between 0 and 100 |
| AuditOrchestration.StatusUpdated | backend/app/services/orchestrator.py:312-334 | status, current step and error are set, `completed_at` only for completed, and the steps and results are untouched |
| AuditOrchestration.ScanIdsIn | backend/app/services/orchestrator.py:210-211 | a column not written gives no scan ids, otherwise its `scan_ids` or none |
| AuditOrchestration.ReadColumnsNeverWritten | backend/app/services/orchestrator.py:369 | no step writes `compliance_check_result` or `code_scan_result` |
| AuditOrchestration.ReadColumnsAbsent | backend/app/services/orchestrator.py:210 | a row holding only step columns holds neither column that is read |
| AuditOrchestration.MarkedKeepsStepColumns | backend/app/services/orchestrator.py:369-378 | marking a step writes only a step column |
| AuditOrchestration.ReportAfterStepsSeesNoScans | backend/app/services/orchestrator.py:203-216 | as written, after the three steps the report finds no scan ids whatever the compliance step recorded |
| AuditOrchestration.ReportSeesRecordedScans | backend/app/services/orchestrator.py:196-211 | reading the column the compliance step writes, the report sees the scan ids it recorded |
| AuditOrchestration.PausedRow | backend/app/services/orchestrator.py:218-231 | the report step leaves the case waiting for approval with the outline, the report step current but not completed |
| AuditOrchestration.WorkflowFromInOrder | backend/app/services/orchestrator.py:86-105 | the steps from `k` on run in order; success pauses with three completed at the report step |
| AuditOrchestration.WorkflowInOrder | backend/app/services/orchestrator.py:86-105 | a workflow on a new case runs the steps strictly in order, and success leaves only the report pending at 75 percent progress |
| AuditOrchestration.WorkflowFrom | backend/app/services/orchestrator.py:86-105 | from any step, success leaves the case waiting for approval at `report_generation` with the outline stored |
| AuditOrchestration.Workflow | backend/app/services/orchestrator.py:86-105 | success leaves the case waiting for approval of its stored outline; a failing first step leaves the case as it was and raises |
| AuditOrchestration.ReportScanIdsAsWritten | backend/app/services/orchestrator.py:210-211 | as written, on any case holding only step results, the report step finds no scan ids |
| AuditOrchestration.ResumeCompletes | backend/app/services/orchestrator.py:254-268 | resuming a paused workflow completes every step and the case, at 100 percent |
| AuditOrchestration.Column | backend/app/services/orchestrator.py:288-290 | a column is shown exactly when it was written, with its value |
| AuditOrchestration.StateShowsOnlyIngestion | backend/app/services/orchestrator.py:288-290 | the reported state shows the rule ingestion result once recorded but never a code scan or compliance check result |
| AuditOrchestration.AuditOrchestrator.constructor | backend/app/services/orchestrator.py:26-32 | the table starts empty |
| AuditOrchestration.AuditOrchestrator.UpdateCaseStatus | backend/app/services/orchestrator.py:312-334 | the case's status is updated as specified; an unknown case changes nothing |
| AuditOrchestration.AuditOrchestrator.MarkStepComplete | backend/app/services/orchestrator.py:336-378 | the case is marked as specified; an unknown case fails on `None` and changes nothing |
| AuditOrchestration.AuditOrchestrator.RunStep | backend/app/services/orchestrator.py:107-201 | a step's result is recorded, or its exception returned with nothing changed |
| AuditOrchestration.AuditOrchestrator.ReportStep | backend/app/services/orchestrator.py:203-233 | corrected (see ## Findings): the outline is built from the scans the compliance step recorded and the case pauses for approval; as written the step reads a column no step writes and reports on no scans (AuditOrchestration.ReportScanIdsAsWritten, AuditOrchestration.ReportAfterStepsSeesNoScans) |
| AuditOrchestration.AuditOrchestrator.ExecuteWorkflow | backend/app/services/orchestrator.py:86-105 | corrected (see ## Findings): the four steps run in order, the first exception ends the workflow, and the report step reads the compliance step's scans; as written the report sees no scans (AuditOrchestration.ReportAfterStepsSeesNoScans) |
| AuditOrchestration.AuditOrchestrator.StartAudit | backend/app/services/orchestrator.py:34-84 | the new case runs the workflow; an exception marks it `failed` with its message and no current step, and is raised |
| AuditOrchestration.AuditOrchestrator.GetCaseState | backend/app/services/orchestrator.py:270-298 | an unknown case is a ValueError; otherwise the state of its row, with non-negative progress |
| AuditOrchestration.AuditOrchestrator.ResumeAudit | backend/app/services/orchestrator.py:235-268 | only a case waiting for approval resumes; a failing report changes nothing; success completes the report step and the case |
| ReportGeneration.VerdictFields | backend/app/services/report_generator.py:144-147 | a scan's verdict column is read as a dict, and a NULL or non-dict column raises AttributeError |
| ReportGeneration.Verdicts | backend/app/services/report_generator.py:143-147 | one verdict per scan, its `final_verdict` or `unknown`, and a failure exactly when some scan's column is not a dict |
| ReportGeneration.CountsWithinTotal | backend/app/services/report_generator.py:149-151 | three different verdicts together occur at most as often as there are scans |
| ReportGeneration.PercentBounds | backend/app/services/report_generator.py:158 | a part of a whole is between 0 and 100 percent |
| ReportGeneration.Rate | backend/app/services/report_generator.py:158 | the guarded rate is between 0 and 100, 0 without scans and 100 when all comply |
| ReportGeneration.CoverageOf | backend/app/services/report_generator.py:136-159 | the coverage counts every collected scan, its verdict counts sum to at most the total, and its rate is a percentage, 0 without scans |
| ReportGeneration.NoScansDivideByZero | backend/app/services/report_generator.py:175-176 | as written, the summary of an audit without scans divides by zero |
| ReportGeneration.ExecutiveSummary | backend/app/services/report_generator.py:161-185 | with the coverage's guard, the summary counts every scan and both percentages lie between 0 and 100 |
| ReportGeneration.SummaryGuarded | backend/app/services/report_generator.py:161-185 | the guarded summary fails only where the coverage does and agrees with the written one whenever there is a scan |
| ReportGeneration.ExecutiveSummaryAsWritten | backend/app/services/report_generator.py:161-185 | as written, no scans raise ZeroDivisionError; otherwise the summary exists exactly when every verdict reads, and counts every scan |
| ReportGeneration.SummaryText | backend/app/services/report_generator.py:171-185 | the text opens with the audit sentence and closes with the critical line exactly when a scan is non-compliant |
| ReportGeneration.Issues | backend/app/services/report_generator.py:187-206 | at most one finding per scan, each non-compliant or partial |
| ReportGeneration.WithKey | backend/app/services/report_generator.py:208 | the entries of one sort key, in their order |
| ReportGeneration.InsertAfterZeros | backend/app/services/report_generator.py:208 | a partial finding goes after every non-compliant one and before the partial ones already there |
| ReportGeneration.SortIsPartition | backend/app/services/report_generator.py:208 | the stable sort puts non-compliant findings first and the rest after, each group in its original order |
| ReportGeneration.PartitionIsPermutation | backend/app/services/report_generator.py:208 | the two groups hold every finding exactly once |
| ReportGeneration.OrganizeFindings | backend/app/services/report_generator.py:187-210 | the findings fail exactly when the verdicts do |
| ReportGeneration.OrganizedFindings | backend/app/services/report_generator.py:187-210 | the organised findings are the issues reordered with non-compliant ones first, each group in scan order |
| ReportGeneration.AddressLines | backend/app/services/report_generator.py:219-224 | one `Address:` line per non-compliant scan |
| ReportGeneration.Recommendations | backend/app/services/report_generator.py:212-229 | between one and ten recommendations |
| ReportGeneration.RecommendationsMeaning | backend/app/services/report_generator.py:212-229 | the default line appears exactly when no scan is non-compliant; otherwise the first ten address lines |
| ReportGeneration.Found | backend/app/services/report_generator.py:116-133 | an id yields at most one scan |
| ReportGeneration.Collected | backend/app/services/report_generator.py:111-134 | at most one scan per id |
| ReportGeneration.CollectedAll | backend/app/services/report_generator.py:111-134 | when every id is a stored scan, each is collected in order |
| ReportGeneration.CollectedNone | backend/app/services/report_generator.py:111-134 | when no id names a stored scan, nothing is collected |
| ReportGeneration.CollectScanResults | backend/app/services/report_generator.py:111-134 | the loop collects the specified scans, skipping the ids that fail |
| ReportGeneration.ReportOutline | backend/app/services/report_generator.py:21-76 | corrected (see ## Findings): the outline is built exactly when every collected scan's verdict is readable, with no scan collected too; as written no collected scan is a ZeroDivisionError (ReportGeneration.ReportOutlineAsWritten, ReportGeneration.NothingFoundFails) |
| ReportGeneration.ReportOutlineAsWritten | backend/app/services/report_generator.py:21-76 | as written, an outline is built only when at least one scan is collected |
| ReportGeneration.NothingFoundFails | backend/app/services/report_generator.py:21-76 | as written, an outline whose ids name no stored scan fails with a division by zero; the guarded one succeeds |
| ReportGeneration.OutlinesAgree | backend/app/services/report_generator.py:21-76 | with a scan collected, both outlines agree |
| ReportGeneration.AuditReportStepFails | backend/app/services/report_generator.py:21-76 | an audit's report step, reading a column no step writes, always divides by zero as written |
| ReportGeneration.SectionFields | backend/app/services/report_generator.py:46-66 | a section carries its title, type and content |
| ReportGeneration.OutlineObjectFields | backend/app/services/report_generator.py:45-74 | the outline holds the sections and the metadata |
| ReportGeneration.MetadataFields | backend/app/services/report_generator.py:69-73 | the metadata counts the ids given |
| ReportGeneration.SectionsShaped | backend/app/services/report_generator.py:46-67 | four sections: summary, overview, findings, recommendations, in that order |
| ReportGeneration.OutlineJsonShape | backend/app/services/report_generator.py:45-74 | the outline has the four sections in order and the scan count |
| ReportGeneration.OutlineShape | backend/app/services/report_generator.py:21-76 | every outline has the four sections in order and counts the ids it was given, found or not |
| ReportGeneration.SectionsOf | backend/app/services/report_generator.py:237 | a falsy report renders no sections |
| ReportGeneration.RowsCheck | backend/app/services/report_generator.py:274-280 | the findings rows render exactly when each has its keys |
| ReportGeneration.BuildHtml | backend/app/services/report_generator.py:231-294 | the page grows section by section as specified |
| ReportGeneration.PrefixErrorStays | backend/app/services/report_generator.py:263-292 | once a section fails the whole page fails the same way |
| ReportGeneration.GenerateHtmlReport | backend/app/services/report_generator.py:78-109 | an unknown case raises ValueError; otherwise its report data, or nothing, is rendered |
| ReportGeneration.FindingRowsRender | backend/app/services/report_generator.py:274-280 | every finding the outline holds renders as a table row |
| ReportGeneration.SummaryRenders | backend/app/services/report_generator.py:264-268 | a summary section renders its heading and its text |
| ReportGeneration.OverviewRenders | backend/app/services/report_generator.py:263-265 | an overview section renders only its heading |
| ReportGeneration.FindingsRender | backend/app/services/report_generator.py:269-281 | a findings section renders its heading and a table when there are rows |
| ReportGeneration.RecommendationsRender | backend/app/services/report_generator.py:282-290 | a recommendations section renders its heading and its list |
| ReportGeneration.BlocksOfFour | backend/app/services/report_generator.py:263-292 | four renderable sections give their blocks in order |
| ReportGeneration.OutlineJsonRenders | backend/app/services/report_generator.py:231-294 | every outline the builder produces renders without error |
| ReportGeneration.OutlineRenders | backend/app/services/report_generator.py:21-109 | an outline renders as the summary, overview, findings table and a list of one to ten recommendations |
| IndexingWorker.JobTimeline | backend/app/workers/indexing_worker.py:36-47 | a job set running and later finished records both times in order, with the final status, result and error it finished with |
| IndexingWorker.JobTable.constructor | backend/app/workers/indexing_worker.py:36-47 | the jobs table starts empty |
| IndexingWorker.JobTable.UpdateJobStatus | backend/app/workers/indexing_worker.py:36-47 | the job's row takes the new status, result and error, its start time when running and its end time when completed or failed; an unknown job id changes nothing |
| IndexingWorker.FinalJobStatus | backend/app/workers/indexing_worker.py:338-340 | the job is "completed" exactly when its result's status is "success", "failed" otherwise |
| IndexingWorker.ErrorField | backend/app/workers/indexing_worker.py:340 | the job's error column is the result's string "error" field when there is one |
| IndexingWorker.CollectChunks | backend/app/workers/indexing_worker.py:176-206 | the file count is the number of files the extension passes keep, and the chunks are theirs, file after file |
| IndexingWorker.ExtensionsExclusive | backend/app/workers/indexing_worker.py:179 | no path ends with two of the indexed extensions |
| IndexingWorker.SelectedCount | backend/app/workers/indexing_worker.py:180-190 | one pass chunks each copy of a file exactly when it has the extension, is outside .git and node_modules, reads and fits the size limit |
| IndexingWorker.CollectedCount | backend/app/workers/indexing_worker.py:179-203 | the passes over the first n extensions chunk each kept file once per copy |
| IndexingWorker.IndexedOnce | backend/app/workers/indexing_worker.py:179-203 | every file that is indexed at all is chunked exactly once, and every other file never |
| IndexingWorker.ProcessChunk | backend/app/workers/indexing_worker.py:213-270 | the chunk gets its cached or freshly made embedding and summary and the cache the new values; an unreachable cache fails the chunk and changes nothing |
| IndexingWorker.CachedEmbeddingReused | backend/app/workers/indexing_worker.py:225-252 | a truthy cached embedding is used as it is whatever the provider would say |
| IndexingWorker.ProcessedTwice | backend/app/workers/indexing_worker.py:213-270 | a chunk processed a second time takes both values from the cache the first time filled |
| IndexingWorker.FailedEmbeddingNotCached | backend/app/workers/indexing_worker.py:244-248 | a failed embedding leaves the chunk without one and caches nothing |
| IndexingWorker.BatchesCover | backend/app/workers/indexing_worker.py:273-275 | the batches of ten, put back together, are the chunks in order; each holds one to ten and all but the last exactly ten |
| IndexingWorker.Threaded | backend/app/workers/indexing_worker.py:274-276 | threading a step through the chunks gives one result per chunk |
| IndexingWorker.ThreadedAppend | backend/app/workers/indexing_worker.py:274-276 | processing two runs of chunks in turn is processing them together |
| IndexingWorker.ProcessedAll | backend/app/workers/indexing_worker.py:274-276 | one derived value per chunk |
| IndexingWorker.ProcessBatch | backend/app/workers/indexing_worker.py:275-276 | a batch is every chunk of it processed in turn, the cache threaded through |
| IndexingWorker.ProcessAll | backend/app/workers/indexing_worker.py:272-277 | batch after batch, every chunk is processed exactly as one pass over all chunks would, in order |
| IndexingWorker.RowsOf | backend/app/workers/indexing_worker.py:281 | one stored row per chunk |
| IndexingWorker.RowsKeepChunks | backend/app/workers/indexing_worker.py:281 | every stored row keeps its chunk's text, file, lines and hash and belongs to the repository indexed |
| IndexingWorker.RepoName | backend/app/workers/indexing_worker.py:113 | the full name splits into owner and name exactly when it has one slash; otherwise the job raises before its try |
| IndexingWorker.IndexCheckout | backend/app/workers/indexing_worker.py:176-300 | the chunks, repository rows and cache change exactly as the run over the checkout specifies |
| IndexingWorker.IndexRepository | backend/app/workers/indexing_worker.py:108-309 | the tables and cache change exactly as the indexing run specifies |
| IndexingWorker.IndexRunMeaning | backend/app/workers/indexing_worker.py:108-309 | the run raises exactly on a bad full name; it succeeds exactly when the checkout works and the cache is reachable or there is nothing to process; a failed run changes nothing; a successful one reports the commit and counts and stores every chunk |
| IndexingWorker.IndexJobStatus | backend/app/workers/indexing_worker.py:338-340 | an indexing job ends "completed" on success and "failed" with the run's error otherwise |
| IndexingWorker.IndexJob | backend/app/workers/indexing_worker.py:311-346 | the job row is set running, then finished from the result, or failed with the error a raising run gives; without a job id the table is untouched |
| IndexingWorker.ScopedChunks | backend/app/workers/indexing_worker.py:368-381 | the regulation chunks are exactly those of the requested rules, or of every stored rule when none are asked for |
| IndexingWorker.TooFarAsWritten | backend/app/workers/indexing_worker.py:410 | the gate as written raises exactly when the search result's distance is NULL |
| IndexingWorker.TooFar | backend/app/workers/indexing_worker.py:410 | the corrected gate agrees with the written one on every real distance and skips a chunk without one |
| IndexingWorker.NullDistanceFailsScanAsWritten | backend/app/workers/indexing_worker.py:408-410 | as written, a search result without an embedding raises out of the loop; the corrected gate skips it |
| IndexingWorker.AsWrittenAgrees | backend/app/workers/indexing_worker.py:408-452 | where every result has an embedding the loop as written and the corrected one give the same drafts |
| IndexingWorker.DraftOf | backend/app/workers/indexing_worker.py:425-445 | a draft is made exactly when the verdict is non_compliant or partial and the model gave severity, score and explanation, and it names the rule, both chunks and the verdict |
| IndexingWorker.ChunkDraftsSoundAndComplete | backend/app/workers/indexing_worker.py:408-452 | the drafts of one regulation chunk are exactly those of its near, analysable and flagged search results, at most one each |
| IndexingWorker.Investigate | backend/app/workers/indexing_worker.py:408-452 | a result that is too far or whose analysis fails gives no draft; a draft names the regulation chunk and the result and was judged non-compliant or partial |
| IndexingWorker.InvestigateAll | backend/app/workers/indexing_worker.py:408-452 | the inner loop collects exactly the specified drafts |
| IndexingWorker.ViolationOf | backend/app/workers/indexing_worker.py:454-456 | a draft is stored with its rule, chunks, verdict, severity, score and the default status, and is rejected exactly when a value does not fit its column |
| IndexingWorker.ViolationsOf | backend/app/workers/indexing_worker.py:454-456 | an accepted batch holds one row per draft |
| IndexingWorker.ViolationsOfMeaning | backend/app/workers/indexing_worker.py:454-456 | the batch is accepted exactly when every draft fits, and then holds each draft's row in order |
| IndexingWorker.IdRange | backend/app/workers/indexing_worker.py:456 | the ids of n new rows, exactly n of them |
| IndexingWorker.InsertedCounted | backend/app/workers/indexing_worker.py:456-459 | inserting n rows of a scan under fresh ids raises its violation count by exactly n |
| IndexingWorker.SearchFor | backend/app/workers/indexing_worker.py:385-399 | a regulation chunk without an embedding is not searched; otherwise the search returns the nearest chunks of the repository |
| IndexingWorker.SearchAndInvestigate | backend/app/workers/indexing_worker.py:385-452 | corrected (see ## Findings): every in-scope regulation chunk is searched and the drafts are those its results yield, in order, a result without an embedding counting as too far; as written such a result raises TypeError and fails the scan (IndexingWorker.ChunkDraftsAsWritten, IndexingWorker.NullDistanceFailsScanAsWritten) |
| IndexingWorker.StoreViolations | backend/app/workers/indexing_worker.py:454-456 | the batch is added under fresh ids and the scan's count grows by the number of drafts |
| IndexingWorker.Finalize | backend/app/workers/indexing_worker.py:454-488 | the violations are stored, the counts recomputed and the scan completed with the number found, or the scan is failed with the batch's error and no row added |
| IndexingWorker.AnalyzeScan | backend/app/workers/indexing_worker.py:349-488 | corrected (see ## Findings): the scan covers exactly the in-scope regulation chunks, searches each and records exactly their drafts; as written a search result without an embedding fails the scan (IndexingWorker.NullDistanceFailsScanAsWritten) |
| IndexingWorker.AnalysisJobStatus | backend/app/workers/indexing_worker.py:509-511 | an analysis job ends "completed" for a finished scan and "failed" with its error otherwise |
| IndexingWorker.AnalyzeJob | backend/app/workers/indexing_worker.py:490-512 | corrected (see ## Findings): the scan is analysed exactly as IndexingWorker.AnalyzeScan states (in-scope chunks, their searches, exactly their drafts, the tables finalised with the returned outcome), the result dictionary is that outcome's, and the job row is set running, then finished from that result; without a job id the job table is untouched |
| IndexingWorker.StartAnalysisJob | backend/app/workers/indexing_worker.py:506-507 | the job's first update sets it running; without a job id nothing changes |
| IndexingWorker.FinishAnalysisJob | backend/app/workers/indexing_worker.py:509-511 | the job's last update records the result and the status and error read from it |
| WebhookVerification.NewVerifier | backend/app/core/webhook_verifier.py:19-20 | the verifier keeps the secret's UTF-8 bytes |
| WebhookVerification.CompareDigest | backend/app/core/webhook_verifier.py:49 | the comparison answers equality for two ASCII strings and raises TypeError otherwise |
| WebhookVerification.VerifySignature | backend/app/core/webhook_verifier.py:22-54 | a missing, empty or non-sha256 header is rejected; the answer is true exactly when the header is the hex HMAC-SHA256 of the payload under the secret |
| WebhookVerification.SignedPayloadAccepted | backend/app/core/webhook_verifier.py:22-54 | a payload signed with the verifier's secret is accepted |
| WebhookVerification.ForeignSignatureRejected | backend/app/core/webhook_verifier.py:22-54 | a signature made with another key or for another payload is rejected, not raised |
| WebhookVerification.MalformedHeadersRejected | backend/app/core/webhook_verifier.py:33-54 | a short sha256 header, an md5 header and a missing header are all rejected |
| WebhookVerification.VerifyRequest | backend/app/core/webhook_verifier.py:56-86 | the body is returned exactly when its signature checks out, and a rejected signature is HTTP 401 |
| GitHubAuth.LoadPrivateKey | backend/app/core/github_auth.py:28-45 | the key loads exactly when the file exists and parses, as its PKCS#8 form; otherwise GitHubAuthError |
| GitHubAuth.ClaimsWindow | backend/app/core/github_auth.py:47-70 | the JWT is issued a minute before now, expires the given seconds after now (ten minutes by default) and names the App as issuer |
| GitHubAuth.ClaimsDifferOverTime | backend/app/core/github_auth.py:57-62 | JWTs made at different moments carry different claims |
| GitHubAuth.Later | backend/app/core/github_auth.py:91 | comparing an offset-aware with an offset-naive datetime raises TypeError; otherwise the later instant is greater |
| GitHubAuth.ClientExpiry | backend/app/core/github_client.py:95-98 | the expiry the client caches is offset-aware, at the instant the reply names |
| GitHubAuth.TokenForAsWritten | backend/app/core/github_auth.py:85-95 | as written, the lookup raises TypeError exactly when caching is asked for and the cached expiry is offset-aware |
| GitHubAuth.ClientTokenHitRaisesAsWritten | backend/app/core/github_auth.py:88-93 | as written, a lookup of a token the client cached raises TypeError; corrected, it is served exactly when it expires more than five minutes from now |
| GitHubAuth.TokenFor | backend/app/core/github_auth.py:72-95 | corrected (see ## Findings): a token is served exactly when caching is asked for, one is cached and it expires more than five minutes from now; on every naive expiry it agrees with the lookup as written, which raises TypeError on the aware expiry the client caches (GitHubAuth.TokenForAsWritten, GitHubAuth.ClientTokenHitRaisesAsWritten) |
| GitHubAuth.CachedTokenServed | backend/app/core/github_auth.py:72-108 | a freshly cached token is served until five minutes before it expires and not after |
| GitHubAuth.ExpiredTokenNotServed | backend/app/core/github_auth.py:88-95 | a token that expired an hour ago is not served |
| GitHubAuth.CachingIsPerInstallation | backend/app/core/github_auth.py:97-108 | caching replaces the installation's previous token and leaves every other installation's answer alone |
| GitHubAuth.InvalidatedNotServed | backend/app/core/github_auth.py:113-117 | after invalidation nothing is served for the installation and others are unaffected |
| GitHubAuth.GitHubAppAuth.constructor | backend/app/core/github_auth.py:23-26 | the App keeps its id and key and starts with no cached token |
| GitHubAuth.GitHubAppAuth.CreateJwt | backend/app/core/github_auth.py:47-70 | the JWT is the App's claims for now, signed with its key, or GitHubAuthError when signing fails |
| GitHubAuth.GitHubAppAuth.GetInstallationToken | backend/app/core/github_auth.py:72-95 | corrected (see ## Findings): the token served is the one the cache rule allows; as written: GitHubAuth.GitHubAppAuth.GetInstallationTokenAsWritten |
| GitHubAuth.GitHubAppAuth.GetInstallationTokenAsWritten | backend/app/core/github_auth.py:72-95 | as written, the method answers what the written lookup gives, a TypeError on an offset-aware expiry included |
| GitHubAuth.GitHubAppAuth.CacheInstallationToken | backend/app/core/github_auth.py:97-111 | the installation's entry becomes the new token and expiry, the rest is kept |
| GitHubAuth.GitHubAppAuth.InvalidateInstallationToken | backend/app/core/github_auth.py:113-117 | the installation's entry is removed, the rest is kept |
| Webhooks.EnqueueRepoIndexing | backend/app/api/webhooks.py:200-232 | the repository is stored under its GitHub id with its name and clone URL, no other row changes, and one indexing job names its stored id |
| Webhooks.EnqueueAll | backend/app/api/webhooks.py:108-114 | the listed repositories are stored and queued in order up to the first entry that does not read, whose error is raised; other rows keep their ids and values |
| Webhooks.HandleInstallation | backend/app/api/webhooks.py:82-121 | created stores the installation with its repositories list and indexes every listed repository; deleted removes the installation; other actions change nothing |
| Webhooks.HandleInstallationRepositories | backend/app/api/webhooks.py:124-140 | added stores and indexes every added repository; other actions change nothing |
| Webhooks.TouchedMeaning | backend/app/api/webhooks.py:157-161 | a path is among the changed files exactly when some commit adds, modifies or removes it |
| Webhooks.ChangedFiles | backend/app/api/webhooks.py:157-161 | the loop gathers exactly the touched paths |
| Webhooks.OtherBranchPassesAsWritten | backend/app/api/webhooks.py:150 | as written, a push to refs/heads/notmain passes the guard for main |
| Webhooks.PushGuardAsWritten | backend/app/api/webhooks.py:150 | as written, the guard admits every push to the default branch (and more, see Webhooks.OtherBranchPassesAsWritten) |
| Webhooks.OnDefaultBranch | backend/app/api/webhooks.py:150 | corrected (see ## Findings): the ref is `refs/heads/` followed by exactly the branch name |
| Webhooks.DefaultBranchGuard | backend/app/api/webhooks.py:150 | the intended guard accepts exactly the default branch's ref, which the written one accepts too, and refuses every other branch |
| Webhooks.HandlePush | backend/app/api/webhooks.py:143-186 | corrected (see ## Findings): a push to another branch changes nothing; a push to the default branch queues one indexing job at the pushed commit, storing the repository first when it is new; as written any ref ending in the branch name passes, `refs/heads/notmain` included (Webhooks.PushGuardAsWritten, Webhooks.OtherBranchPassesAsWritten) |
| Webhooks.HandleEvent | backend/app/api/webhooks.py:52-65 | corrected (see ## Findings): each supported event goes to its handler and a payload that does not read raises; other event types, pull requests included, change nothing; pushes pass the corrected branch guard, where as written a ref ending in the branch name passes (Webhooks.OtherBranchPassesAsWritten) |
| Webhooks.HeaderOr | backend/app/api/webhooks.py:34-35 | a missing or empty header reads as the empty string |
| Webhooks.HeaderlessDeliveriesShareId | backend/app/api/webhooks.py:35-46 | every delivery without an id is filed under the same empty id, so after one is processed the others read as duplicates |
| Webhooks.GithubWebhook | backend/app/api/webhooks.py:19-79 | corrected (see ## Findings): a bad signature is 401 and a bad body a ValueError, both recording nothing; a processed delivery is answered without effect; a handled one is marked processed; a failing handler is 500 and the delivery stays unprocessed; pushes pass the corrected branch guard (as written: Webhooks.OtherBranchPassesAsWritten) |
| AgentLogs.LogKey | backend/app/services/agents.py:25 | the list key is the scan id wrapped in a fixed prefix and suffix |
| AgentLogs.LogKeysDistinct | backend/app/services/agents.py:25 | different scans log to different lists |
| AgentLogs.EntryJson | backend/app/services/agents.py:31-36 | a log entry holds exactly the agent, message, timestamp and epoch fields, with the agent and message given |
| AgentLogs.Pushed | backend/app/services/agents.py:47 | RPUSH appends the entry to the scan's list and leaves every other list alone |
| AgentLogs.LoggedExpiry | backend/app/services/agents.py:50-52 | a log sets the key's expiry only when it has none, and touches no other key |
| AgentLogs.FirstExpiryStays | backend/app/services/agents.py:50-52 | later logs do not extend the expiry the first one set |
| AgentLogs.DecodeAll | backend/app/services/agents.py:72-75 | the entries decode exactly when every one of them does, each to its own value |
| AgentLogs.ReadAfterLog | backend/app/services/agents.py:47-72 | an entry logged is read back last, after the entries before it |
| AgentLogs.ReadLogs | backend/app/services/agents.py:71-76 | one stored entry that does not decode empties the answer; otherwise every entry of the window, decoded, in order |
| AgentLogs.FirstLogRead | backend/app/services/agents.py:47-72 | the first entry logged for a scan is all a read from the start returns |
| AgentLogs.AgentLogger.constructor | backend/app/services/agents.py:22-25 | the logger keeps the scan id and TTL and derives its key from the scan |
| AgentLogs.AgentLogger.Log | backend/app/services/agents.py:27-57 | as intended, the entry is appended to the scan's list and the first log sets the TTL; an unreachable server changes nothing |
| AgentLogs.AgentLogger.GetLogs | backend/app/services/agents.py:59-75 | as intended, the decoded entries from the start index on, or nothing when the server or the decoding fails |
| AgentLogs.AgentLogger.LogAsWritten | backend/app/services/agents.py:38-57 | as written, the local import rebinds the client's name to the module, the type check fails and nothing is ever pushed |
| AgentLogs.AgentLogger.GetLogsAsWritten | backend/app/services/agents.py:63-75 | as written, the same failed check makes every read return the empty list |
| AgentLogs.GetScanLogs | backend/app/services/agents.py:78-80 | corrected (see ## Findings): every entry of the scan from the start, or nothing when the server fails; as written no entry is ever pushed, so the answer is always empty (AgentLogs.AgentLogger.LogAsWritten) |
| HitlReviewer.DecisionStatus | backend/app/services/hitl_reviewer.py:116-122 | approve maps to approved, reject to rejected, anything else to pending |
| HitlReviewer.DecisionsMapped | backend/app/services/hitl_reviewer.py:116-122 | only an approval approves and only a rejection rejects; a request for changes leaves the violation pending |
| HitlReviewer.SubmitDecision | backend/app/services/hitl_reviewer.py:92-134 | the violation's status, note and review time are set from the decision, an unknown id changes nothing, and the reply names the status written |
| HitlReviewer.JoinedViolation | backend/app/services/hitl_reviewer.py:144-154 | a violation is found exactly when it, its scan and its repository exist, and comes with the repository's full name |
| HitlReviewer.FindingDataOf | backend/app/services/hitl_reviewer.py:136-165 | a found violation wins; otherwise a scan asked for and found is the answer; nothing exactly when neither is found |
| HitlReviewer.ResultIdIgnored | backend/app/services/hitl_reviewer.py:136-165 | the result id plays no part in the lookup |
| HitlReviewer.Explanation | backend/app/services/hitl_reviewer.py:201-211 | the reply read as a response when it parses, otherwise the fixed fallback with confidence 0 |
| HitlReviewer.Suggestion | backend/app/services/hitl_reviewer.py:241-251 | the reply read as a suggestion when it parses, otherwise the fixed fallback with confidence 0 and no snippet |
| HitlReviewer.ExplainFinding | backend/app/services/hitl_reviewer.py:23-57 | no finding data is a ValueError; otherwise the LLM's reply about the data, its failure passed on |
| HitlReviewer.SuggestFix | backend/app/services/hitl_reviewer.py:59-90 | an unknown violation is a ValueError; otherwise the LLM's suggestion, its failure passed on |
| HitlReviewer.UnreadableRepliesHaveNoConfidence | backend/app/services/hitl_reviewer.py:241-251 | an unreadable reply never passes for a confident suggestion |
| Llm.MacroCompliancePrompt | backend/app/services/llm.py:1-11 | the prompt carries the rule text and the context block verbatim at fixed places |
| Llm.PromptDetermines | backend/app/services/llm.py:1-11 | prompts for rule texts of one length are equal only for equal rule texts and context blocks |
| Llm.NewService | backend/app/services/llm.py:30-56 | Azure needs an endpoint and key, OpenAI a key and uses gpt-4o-mini, any other provider is refused with LLMProviderError |
| Llm.GenerateRequest | backend/app/services/llm.py:80-86 | a falsy temperature or token override falls back to the service default |
| Llm.GenerateAttempt | backend/app/services/llm.py:80-94 | one attempt returns the provider's answer or an LLMProviderError |
| Llm.GenerateMeaning | backend/app/services/llm.py:58-94 | the completion succeeds exactly when one of three attempts does, else an LLMProviderError |
| Llm.Generate | backend/app/services/llm.py:58-94 | a failure is an LLMProviderError, and an answer is the reply of one of the three attempts |
| Llm.FirstAnswerWins | backend/app/services/llm.py:58-94 | a first answer is returned without retry |
| Llm.AnalyzeCompliance | backend/app/services/llm.py:162-179 | a JSON reply is returned as decoded; otherwise the unknown/medium/5.0 fallback carrying the raw reply |
| Llm.FallbackKeepsReply | backend/app/services/llm.py:170-179 | the fallback keeps the reply: different replies give different fallbacks |
| Llm.CountSeverity | backend/app/services/llm.py:207-210 | a severity count is at most the number of violations |
| Llm.Listings | backend/app/services/llm.py:195-198 | one listing line per violation |
| Llm.CountsBounded | backend/app/services/llm.py:207-210 | the four severity counts together are at most the number of violations |
| Llm.ScanSummaryCounts | backend/app/services/llm.py:181-216 | the prompt counts every violation, each severity count is the number of violations of that severity, and those sum to at most the total |
| Llm.CountSeverityIsMultiplicity | backend/app/services/llm.py:207-210 | a severity's count is how often it occurs among the violations |
| Llm.Listed | backend/app/services/llm.py:197 | the listing covers the first twenty violations at most |
| Llm.ListingCapped | backend/app/services/llm.py:195-210 | violations past the twentieth change the counts but not the listing |
| Analysis.SeverityRank | backend/app/api/analysis.py:113-116 | a severity ranks by its order, and a word naming no severity ranks with low |
| Analysis.ThresholdOrder | backend/app/api/analysis.py:112-117 | no threshold or low keeps every severity, critical keeps only critical, a threshold keeps exactly the severities ranked at or above it, and a lower threshold keeps at least as much |
| Analysis.SimilarityAsWritten | backend/app/api/analysis.py:82 | as written, the similarity is one less the distance, and a NULL distance raises |
| Analysis.Similarity | backend/app/api/analysis.py:82 | corrected, a chunk without a distance scores 0; otherwise one less the distance |
| Analysis.NullDistanceRaisesAsWritten | backend/app/api/analysis.py:82 | as written, a chunk without an embedding among the nearest fails the whole request with TypeError; corrected, it scores 0 |
| Analysis.SimilarityAgrees | backend/app/api/analysis.py:82 | where the search returns a distance, both versions agree |
| Analysis.OptionalText | backend/app/api/analysis.py:125-126 | an optional text field is None when absent or null, the string when it is one, and fails validation otherwise |
| Analysis.FromAnalysis | backend/app/api/analysis.py:118-134 | the response validates exactly when verdict, severity, score and explanation have the right types and values, and then carries them with the chunk's place and the custom_rule id |
| Analysis.AnalysisOf | backend/app/api/analysis.py:99-106 | the analysis fails exactly when the completion does, and is the decoded reply or its fallback otherwise |
| Analysis.ChunkViolation | backend/app/api/analysis.py:98-138 | a chunk yields a violation exactly when its analysis succeeds, is flagged, validates and passes the threshold |
| Analysis.UnreadableReplyIsNoViolation | backend/app/api/analysis.py:98-138 | a reply that is not JSON is never a violation |
| Analysis.ViolationsSoundAndComplete | backend/app/api/analysis.py:81-138 | the violations are exactly those of the matched chunks, at most one each, each non-compliant or partial and passing the threshold |
| Analysis.MatchedOf | backend/app/api/analysis.py:81-96 | one matched chunk per search result, in order |
| Analysis.MatchedScores | backend/app/api/analysis.py:81-96 | each matched chunk scores one less its distance, and 0 without an embedding |
| Analysis.ChunksOf | backend/app/api/analysis.py:81-96 | the chunks behind the matched list, in order |
| Analysis.AnalyzeRule | backend/app/api/analysis.py:44-149 | corrected (see ## Findings): an unknown repository is 404 and a failed embedding raises; otherwise the matched chunks are the repository's nearest, scored (a chunk without an embedding scoring 0), with exactly the violations they yield and the summary counting both; as written a chunk without an embedding raises TypeError (Analysis.NullDistanceRaisesAsWritten) |
| Analysis.CommitOr | backend/app/api/analysis.py:175 | an empty or missing commit falls back to the repository's last commit |
| Analysis.FullRepoScan | backend/app/api/analysis.py:152-200 | an unknown repository is 404 and changes nothing; otherwise a new running scan row is created, one analysis job queued for it, and a pending response returned |
| Analysis.FromRow | backend/app/api/analysis.py:222-238 | a stored violation validates exactly when its verdict and severity are known, and keeps every field |
| Analysis.FromRows | backend/app/api/analysis.py:222-239 | the list validates exactly when every row does, one response per row in order |
| Analysis.GetScanResults | backend/app/api/analysis.py:203-262 | an unknown scan is 404; a completed scan asked with violations lists all of them, by descending score; any other lists none; a stored value the model refuses is an error |
| Analysis.TriggerErrorAsWritten | backend/app/api/analysis.py:307-309 | as written, every failure of the trigger becomes a 500 |
| Analysis.TriggerError | backend/app/api/analysis.py:289-309 | corrected, the endpoint's own HTTP errors pass through and anything else is a 500 |
| Analysis.NoRegulationBecomes500AsWritten | backend/app/api/analysis.py:292-309 | as written, the 404 for no regulation reaches the client as a 500; corrected, it stays a 404 |
| Analysis.TriggerComplianceScan | backend/app/api/analysis.py:269-309 | corrected (see ## Findings): no regulation is 404 and a failed lookup an error, both changing nothing; otherwise the scan is stored as the pipeline leaves it and the reply says running; as written the 404 is caught and answered as 500 (Analysis.NoRegulationBecomes500AsWritten) |
| Analysis.TriggerReplyIsStale | backend/app/api/analysis.py:298-305 | a trigger that succeeds answers running while its scan already waits for approval |
| Analysis.ApprovalErrorAsWritten | backend/app/api/analysis.py:402-406 | as written, a ValueError is 404 and every other failure a 500 |
| Analysis.ApprovalError | backend/app/api/analysis.py:384-406 | corrected, the handler's own 400 passes through |
| Analysis.BadDecisionBecomes500AsWritten | backend/app/api/analysis.py:399-406 | as written, a decision other than approve or decline reaches the client as a 500 naming the 400 |
| Analysis.ApproveScanRemediation | backend/app/api/analysis.py:362-406 | corrected (see ## Findings): approve runs the approval and maps its error; decline marks the scan declined; any other decision is a 400 and changes nothing; as written that 400 reaches the client as a 500 (Analysis.BadDecisionBecomes500AsWritten) |
| Analysis.ApprovingWrongScanIs404 | backend/app/api/analysis.py:385-403 | approving an unknown scan or one not waiting is a 404 and changes nothing |
| Dashboard.ViewOf | backend/app/api/dashboard.py:17-26 | a stored scan is read with its repository, its creation time and both counts present |
| Dashboard.KeptFrom | backend/app/api/dashboard.py:17-21 | the kept positions are in order, each holds its repository's latest scan by `created_at` (the first of equals), and none is missed |
| Dashboard.LatestScans | backend/app/api/dashboard.py:17-22 | the scans read are the kept rows, in order |
| Dashboard.OnePerRepository | backend/app/api/dashboard.py:17-22 | no two scans read share a repository, and none has a more recent scan of its repository |
| Dashboard.EveryRepositoryRead | backend/app/api/dashboard.py:17-22 | every repository with a scan is represented |
| Dashboard.LatestOf | backend/app/api/dashboard.py:17-22 | every scanned repository has a latest scan, which is kept |
| Dashboard.SumTotal | backend/app/api/dashboard.py:25 | no scans sum to 0; each scan's count, NULL read as 0, is within the sum; scans whose counts are all NULL sum to 0 |
| Dashboard.SumCritical | backend/app/api/dashboard.py:26 | no scans sum to 0; each scan's critical count, NULL read as 0, is within the sum; scans whose counts are all NULL sum to 0 |
| Dashboard.OrZero | backend/app/api/dashboard.py:25-26 | a NULL count reads as 0, any other as itself |
| Dashboard.NullCountsAddNothing | backend/app/api/dashboard.py:25-26 | a scan whose counts are NULL leaves both sums unchanged |
| Dashboard.CriticalWithinTotal | backend/app/api/dashboard.py:25-26 | when each scan's critical count is within its total, so are the sums |
| Dashboard.ComplianceScore | backend/app/api/dashboard.py:29-32 | the score is never negative and is 100 less the penalties unless those exceed 100 |
| Dashboard.ScoreBounds | backend/app/api/dashboard.py:29-32 | for real counts the score lies in 0..100 and is 100 exactly without violations |
| Dashboard.ScoreMonotone | backend/app/api/dashboard.py:29-32 | more violations never raise the score |
| Dashboard.CriticalCostsSeventeen | backend/app/api/dashboard.py:29-32 | a critical violation, counted among all violations too, costs 17 points while the score stays positive |
| Dashboard.GetDashboardStats | backend/app/api/dashboard.py:8-48 | the stats count the repositories with scans and sum their latest scans' violations, the score follows from those sums and lies in 0..100, and the trend is the fixed -5 |
| Dashboard.CriticalBoundsScore | backend/app/api/dashboard.py:24-32 | the score is 0 or at most 100 less 17 points per critical violation |
| Admin.Classify | backend/app/api/admin.py:68-74 | healthy exactly when every service is up; degraded when database and Redis are but something else is not; unhealthy when the database or Redis is down |
| Admin.HealthCheckAsWritten | backend/app/api/admin.py:22-81 | as written, the Redis flag stays false because the connect call returns None, so every response reports Redis down |
| Admin.AlwaysUnhealthyAsWritten | backend/app/api/admin.py:49-74 | as written, the health check reports unhealthy whatever the services' state |
| Admin.HealthCheck | backend/app/api/admin.py:22-81 | corrected, the Redis flag says whether the server answers, and the status is classified from all four flags |
| Admin.StatusesReachable | backend/app/api/admin.py:68-74 | corrected, healthy and degraded are both reachable: healthy exactly when all probes pass, degraded when only the embedding probe fails |
| Admin.UploadStep | backend/app/api/admin.py:157-167 | one chunk takes a cached embedding or a fresh one that is then cached; a failure changes nothing |
| Admin.Uploaded | backend/app/api/admin.py:157-167 | a successful upload gives every chunk an embedding |
| Admin.UploadCaches | backend/app/api/admin.py:157-167 | after a successful upload every chunk's text is cached with the embedding the chunk got, and older entries stay |
| Admin.AllCachedAsksNoProvider | backend/app/api/admin.py:157-167 | chunks that are all cached ask the provider nothing, write nothing and get their cached embeddings |
| Admin.UploadAgainReusesEmbeddings | backend/app/api/admin.py:157-167 | uploading the same chunks again asks the provider nothing and gives the same embeddings |
| Admin.UploadedStops | backend/app/api/admin.py:157-167 | a failure ends the loop and the later chunks change nothing |
| Admin.RowsOf | backend/app/api/admin.py:172 | one row per chunk, carrying its embedding |
| Admin.EmbedOne | backend/app/api/admin.py:158-167 | one iteration does what the upload step specifies |
| Admin.EmbedChunks | backend/app/api/admin.py:157-167 | the loop gives each chunk its embedding and stops at the first failure, as specified |
| Admin.UploadRegulation | backend/app/api/admin.py:137-179 | bad chunk data raises before the queue connects and changes nothing; otherwise the chunks are embedded, a failure ends the upload before any row is written, and a success upserts one row per chunk and counts them |
| Schemas.ParseVerdict | backend/app/models/schemas.py:102 | a word parses to the verdict of that name, and no verdict has the name of a word that does not parse |
| Schemas.VerdictRoundTrip | backend/app/models/schemas.py:102 | every verdict's name parses back to it |
| Schemas.ParseSeverity | backend/app/models/schemas.py:103 | a word parses to the severity of that name, and no other word parses |
| Schemas.SeverityRoundTrip | backend/app/models/schemas.py:103 | every severity's name parses back to it |
| Schemas.ParseScanStatus | backend/app/models/schemas.py:119 | a word parses to the scan status of that name, and no other word parses |
| Schemas.ScanStatusRoundTrip | backend/app/models/schemas.py:119 | every scan status's name parses back to it |
| Schemas.NoWaitingApprovalStatus | backend/app/models/schemas.py:119 | a scan waiting for approval has no status the response accepts |
| Schemas.ParseJobStatus | backend/app/models/schemas.py:194 | a word parses to the job status of that name, and no other word parses |
| Schemas.JobStatusRoundTrip | backend/app/models/schemas.py:194 | every job status's name parses back to it |
| Schemas.ParseHealthStatus | backend/app/models/schemas.py:206 | a word parses to the health status of that name, and no other word parses |
| Schemas.HealthStatusRoundTrip | backend/app/models/schemas.py:206 | every health status's name parses back to it |
| Schemas.ValidateAnalyzeRule | backend/app/models/schemas.py:136-143 | the request validates exactly when top_k lies in 1..50 (10 by default) and a threshold names a severity, and keeps what it was given |

## Left out

- Git and the filesystem. The clone, the temporary directory, the `rglob` walk and the file reads are one parameter: it yields the checked-out commit and the files.
- Network clients. The OpenAI and Azure SDK calls, the GitHub API and Jira are oracle parameters. So are the LangGraph and LangChain runtimes.
- The Python `ast` helpers (call links, variables, config keys, constants, missing error handling, the flow graph builder). They depend on Python's parser, so a code unit carries only the fields the chunker and the change classifier read.
- Hash and crypto primitives. SHA-256, MD5 and HMAC-SHA-256 are symbolic, collision-free digests. RS256 signing and PEM key loading are oracles.
- Floating point. Distances, similarities and percentages are exact reals or integers, and float rounding and `:.1f` formatting are not modelled.
- Concurrency. The `asyncio.gather` batches run one after another, in order. The asyncpg pool, its lock and the RQ worker entry point are not modelled.
- The `asyncio.sleep` delays the demo agents make.
- Postgres and pgvector internals. `search_similar` returns a nearest-first selection by an abstract distance; ties and the place of NULL distances in the order are left open.
- UUIDs. Generated identifiers are drawn from a counter or are the text of a row index.
- Connection failures of `db.acquire`/`db.connect` are not modelled; only the failures the services themselves check are.
- The agents' progress log inside the worker's analysis job (`IndexingWorker.AnalyzeScan`), which only writes log entries to Redis.
- Failures of the Redis cache writes in the worker, and a cached embedding that is not a list of numbers.
- Admin.UploadStep: a cached JSON `null` is reused as "no embedding", while `upload_regulation` (admin.py:160-164) re-embeds the chunk; the cached value is kept opaque so that the cache lemmas stay about presence.
- The JSON encoding of metadata dicts and of the `jobs` table's result column. Stored JSON is a value, not text.
- Pydantic coercions beyond the `Literal` and bounded fields; a request body is the decoded value.
- `created_at` of scans and violations in the API responses. The dashboard orders scans by `created_at` (dashboard.py:20); its view of a stored scan (`Dashboard.ViewOf`) takes `started_at` as that time, because both are set when the row is inserted.
- The webhook payload decoding, a parameter per event type. The enqueue of a job is taken to succeed, and `pull_request` events are only logged, which the model keeps as changing nothing.
- Plain reads with no logic beyond the query: `get_by_repo` of code chunks, `get_by_id`/`list_all` of installations, `get_by_id` of scans, the admin listings of repositories, regulations and regulation chunks, and the preloader's `get_regulation_metadata`.
- The compliance scanner's `get_scan_status`, the dashboard's `get_recent_activity`, and the analysis endpoints for agent execution status and agent logs. They read rows and format them.
- `reindex_changed_files` and the stray `get_scan_agent_logs` route at the top of the worker module, which refer to names the worker does not define.
- Imports of names that no module defines. `CodeMapQueries` is read as the `CodeChunkQueries` it evidently means. `AuditCaseState` is taken to exist in the schemas, although its absence would make the orchestrator module fail to import. The HITL schema names are not modelled.
- The text of the HTML report. The report is the sequence of blocks that appear (headings, summary, finding rows and recommendation items).
- The Redis server is an environment model. Its expiry is the recorded time-to-live, and keys never expire on their own during a call.
- Strings are ASCII-level: `\s`, `\w` and `lower()` are modelled on their ASCII parts.
- Ordering.StrLess: strings are ordered by code point. `ORDER BY rule_id` follows the database's collation, which can order mixed case and punctuation differently.
- PipelineAgents.TasksOf: an object under `"tasks"` gives its keys in code-point order, not in the object's insertion order, because the model's JSON objects are maps.
- CodeParser.FileName: a path ending in `/` gives the empty name. The `rglob` walk only yields files, so no such path reaches it.
- AuditOrchestration.StepWork: the bodies of the first three audit steps (rule ingestion, code scanning, compliance checking) are results given as a parameter. The model covers how each result is recorded and the order of the steps.

## Findings

| source | as written | input that shows it | evidently intended | confidence | as-written member | corrected member |
|---|---|---|---|---|---|---|
| backend/app/services/regulation_ingestion.py:178-186 | `_store_document` names seven placeholders but passes six values; the content hash is never passed | any document: asyncpg refuses the statement with an InterfaceError, so every ingestion fails before a rule is stored | pass the content hash as the sixth value and the status as the seventh | high, not executed | RegulationIngestion.StoreDocumentAsWritten | RegulationIngestion.StoreDocument |
| backend/app/services/regulation_ingestion.py:194-196 | the rule code is the first word of an amendment reference that contains `RBI-` | the reference "See RBI-MD-KYC" gives the rule code "See" | the word of the reference that holds the code, `RBI-MD-KYC` | medium, not executed | RegulationIngestion.ProseReferenceMisread | RegulationIngestion.RuleCode |
| backend/app/services/regulation_ingestion.py:126-137 | the new rule row is stored active before its embedding is computed, and the old row is superseded only afterwards | an active rule with an active previous version whose embedding call fails: both rows stay active | at most one active row per rule code, whatever step fails | medium, not executed | RegulationIngestion.EmbedFailureLeavesTwoActive | RegulationIngestion.StepKeepsSingleActive |
| backend/app/services/agents.py:38-47 | `import redis.asyncio` inside the function rebinds the local name `redis`, so the `isinstance` test fails and the swallowed RuntimeError drops the entry | any log call: nothing is pushed, and `get_logs` always answers an empty list | append the entry to the scan's list and read the list back | high, not executed | AgentLogs.AgentLogger.LogAsWritten | AgentLogs.AgentLogger.Log |
| backend/app/services/orchestrator.py:369-378 | a step's result is written to the column `{step}_result`, for example `compliance_checking_result` | any audit case run through its steps: the report step reads `compliance_check_result`, finds no scan ids and reports on no scans | the step's result lands where the report step reads it | medium, not executed | AuditOrchestration.ReportAfterStepsSeesNoScans | AuditOrchestration.ReportSeesRecordedScans |
| backend/app/services/report_generator.py:166-180 | the executive summary divides by the number of scans | an audit case with no scans raises ZeroDivisionError | the guard the coverage already has: no scans give 0 of 0 at 0 percent | high, not executed | ReportGeneration.NoScansDivideByZero | ReportGeneration.SummaryGuarded |
| backend/app/api/admin.py:50-56 | Redis counts as healthy only when `connect_async()` returns something truthy, and it returns None | any health check: Redis is never healthy, so the status is never `healthy` | test the connection itself (a ping) | high, not executed | Admin.AlwaysUnhealthyAsWritten | Admin.StatusesReachable |
| backend/app/api/webhooks.py:150 | the push guard tests that the ref ends with the default branch's name | a push to `refs/heads/notmain` with default branch `main` is processed | the ref equals `refs/heads/` followed by the default branch | high, not executed | Webhooks.OtherBranchPassesAsWritten | Webhooks.DefaultBranchGuard |
| backend/app/api/analysis.py:82 | the similarity subtracts the row's distance, which is NULL for a chunk without an embedding | a matched row whose distance is None raises TypeError and fails the request | treat a missing distance as the default 1.0 | medium, not executed | Analysis.NullDistanceRaisesAsWritten | Analysis.Similarity |
| backend/app/api/analysis.py:289-309 | the 404 raised when no regulation is loaded is caught by the generic handler | no regulation chunk: the answer is 500, not 404 | let the HTTPException pass through unchanged | high, not executed | Analysis.NoRegulationBecomes500AsWritten | Analysis.TriggerError |
| backend/app/api/analysis.py:384-406 | the 400 raised for an unknown decision is caught by the generic handler | the decision "maybe" is answered with 500, not 400 | let the HTTPException pass through unchanged | high, not executed | Analysis.BadDecisionBecomes500AsWritten | Analysis.ApprovalError |
| backend/app/core/github_auth.py:91 | the cached expiry is compared with the naive `datetime.utcnow() + timedelta(minutes=5)`, but the client caches the offset-aware time it parsed (github_client.py:95-98) | any lookup with caching on, after the client cached a token for that installation, raises TypeError | compare the two instants, both aware or both naive | high, not executed | GitHubAuth.ClientTokenHitRaisesAsWritten | GitHubAuth.TokenFor |
| backend/app/workers/indexing_worker.py:410 | the distance filter compares the row's distance, which is NULL for a chunk without an embedding | a close chunk whose distance is None raises TypeError and fails the whole scan | treat a missing distance as the default 1.0, which is too far | medium, not executed | IndexingWorker.NullDistanceFailsScanAsWritten | IndexingWorker.TooFar |
