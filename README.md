# llama-rag-starter in Dafny

A verified model of the bookkeeping core of llama-rag-starter, a retrieval-augmented question
answering service. The model covers five parts:

- **The document-to-vector ledger of `IndexManager`.** Each indexed document path owns a list
  of ids into a FAISS flat index, and `next_id` is the next id to hand out.
  - Adding a document hands out a contiguous block of ids.
  - Removing a document compacts the vector array with a keep-mask and renumbers every
    surviving id.
  - Rebuilding assigns ids consecutively, path by path.

  The model proves that all three keep one invariant, `IndexManagement.Consistent`:
  - the ids of each document are increasing and below `next_id`;
  - no two documents share an id;
  - `next_id` equals the number of vectors in the index.

  It also proves that after a removal every renumbered id still names the vector it named before.
  It proves as well that the source breaks the invariant when `persist` raises after
  `from_documents` has appended vectors: the mapping is not updated, so the new vectors belong to
  no document and the next `next_id` names the first of them.
- **The reasoning recorder `AgentReasoningCallback`.** It is a LangChain callback that appends
  step dicts for the chat UI. Step dicts are objects, so the model keeps the aliasing by which
  `on_tool_end` writes into a dict already in `steps`.
- **The admission rules for files.**
  - `allowed_file` and the upload filter of the Flask routes decide which files are accepted.
  - The handlers `build_index`, `upload_and_index` and `query` answer with fixed status codes.
  - The routes keep a module-global query engine cache.
  - `DocumentProcessor` decides which files it validates and processes.
- **The chat client's session logic** in `streamlit_chat.py`:
  - how the message history grows;
  - the precedence of a clicked example question over typed input;
  - how reasoning steps are shown;
  - the simulated streaming of the answer.

The chat client sends one blocking POST and then reveals the answer five characters at a time.

Modules, one per source file, plus two shared ones:

| module | file | source |
|---|---|---|
| `Common` | `common.dfy` | `Option`, `Result` and `dict.get` on string-valued JSON objects |
| `Text` | `text.dfy` | `str.lower`, substring test, `rfind`, `os.path.basename` |
| `VectorIds` | `vector_ids.dfy` | keep-mask, compaction and renumbering (src/core/index_manager.py) |
| `IndexManagement` | `index_manager.dfy` | class `IndexManager` (src/core/index_manager.py) |
| `DocumentProcessor` | `document_processor.dfy` | src/core/document_processor.py |
| `Callbacks` | `callbacks.dfy` | agents/base/callbacks.py |
| `Routes` | `routes.dfy` | src/api/routes.py |
| `StreamlitChat` | `streamlit_chat.dfy` | streamlit_chat.py |

Calls into other libraries, the filesystem and the network become parameters that carry their
outcome:

- `indexing` is how the llama_index storage calls of adding and rebuilding went. Either
  `from_documents` raised before appending anything, or it appended its vectors and `persist`
  then raised, or the mapping was updated and saving it then raised, or everything went through.
- `loaded` is the result of `load_query_engine`.
- `buildError` is the first exception among saving the kept uploads (`file.save`) and
  `build_and_persist_index`. Either one gives the same 500.
- `saveError` is the exception that `_save_faiss_index` or `_save_mapping` raised in
  `remove_document`, if any.
- `body` is what `request.get_json()` gives the `query` handler: the exception it raised, or
  the parsed object, with `None` for a JSON `null`.
- `reply` is the result of `requests.post`.
- `secure` stands for `secure_filename`.
- `now` stands for `datetime.now().isoformat()`.
- A file is given by its path, whether it exists and its size.

## Model

| member | source | states |
|---|---|---|
| Common.Get | agents/base/callbacks.py:17 | `dict.get(key, default)`: the stored value when the key is present, the default otherwise |
| Text.LowerChar | src/api/routes.py:22 | lowercasing a character never yields an ASCII capital and leaves every character other than a capital as it is |
| Text.Lower | src/api/routes.py:22 | `str.lower()`: same length, every ASCII capital replaced by its lower-case letter, every other character kept |
| Text.LastIndexOf | src/api/routes.py:22 | the position of the last occurrence of a character, or None exactly when it does not occur; nothing after it is that character |
| Text.Contains | agents/base/callbacks.py:17 | `"agent" in name`: the substring occurs at some position of the string |
| Text.BaseName | src/core/index_manager.py:103 | `os.path.basename`: a suffix of the path without '/', preceded by '/' whenever it is shorter than the path |
| VectorIds.Min | src/core/index_manager.py:186 | `min` of a non-empty list is one of its elements and at most every element |
| VectorIds.CountBelow | src/core/index_manager.py:196 | the count of removed ids below an id is at most the number of removed ids |
| VectorIds.Renumbered | src/core/index_manager.py:194-199 | a renumbered id never rises and drops by at most the number of removed ids |
| VectorIds.RenumberedIsShift | src/core/index_manager.py:193-199 | both branches of the renumbering lower an id by the number of removed ids below it; ids up to the smallest removed one are unchanged |
| VectorIds.RenumberIds | src/core/index_manager.py:192-200 | a document's renumbered id list has its length and renumbers each entry in place |
| VectorIds.ClearedStep | src/core/index_manager.py:146-148 | each pass of the mask loop clears at most the position of the current id, and only when that id is below `ntotal` |
| VectorIds.MaskIndex | src/core/index_manager.py:148 | numpy's index into the mask: an id in `[-ntotal, ntotal)` lands on a position of the mask, and a non-negative id on itself |
| VectorIds.MaskFails | src/core/index_manager.py:146-148 | `keep_mask[vid] = False` raises IndexError exactly when some removed id is below `-ntotal`; `BuildKeepMask` states this |
| VectorIds.KeepMask | src/core/index_manager.py:145-148 | the mask has one entry per vector of the index |
| VectorIds.KeepMaskInRange | src/core/index_manager.py:145-148 | for ids within the index the mask is false exactly at the removed positions |
| VectorIds.Compact | src/core/index_manager.py:152 | `all_vectors[keep_mask]` holds as many vectors as the mask has true entries |
| VectorIds.CompactAt | src/core/index_manager.py:152 | a kept vector lands at the number of kept positions before it |
| VectorIds.KeptOrderPreserved | src/core/index_manager.py:152 | kept vectors keep their relative order |
| VectorIds.CompactAllKept | src/core/index_manager.py:152 | a mask with nothing cleared leaves the vectors unchanged |
| VectorIds.KeptBelowIsShift | src/core/index_manager.py:145-196 | the number of kept positions below `i` is `i` minus the number of removed ids below `i` |
| VectorIds.CompactedLength | src/core/index_manager.py:145-155 | removing distinct in-range ids leaves `ntotal - len(removed)` vectors |
| VectorIds.SurvivorLands | src/core/index_manager.py:145-200 | every surviving id is renumbered to the position its vector takes in the compacted index |
| VectorIds.SurvivorsOrdered | src/core/index_manager.py:192-200 | the renumbering is strictly increasing on surviving ids, so they stay distinct and ordered |
| IndexManagement.LoadMapping | src/core/index_manager.py:32-41 | a missing or unreadable mapping file gives no documents and `next_id` 0; a stored one is returned as is |
| IndexManagement.IdRange | src/core/index_manager.py:96 | `list(range(start, start + n))` has `n` entries, the `i`-th being `start + i` |
| IndexManagement.WithDocument | src/core/index_manager.py:94-104 | the path gets the block of ids, its chunk count, timestamp and base name; an existing entry is replaced and the others are untouched |
| IndexManagement.AddKeepsConsistent | src/core/index_manager.py:94-105 | adding `n` documents at `next_id` to a consistent ledger whose index grew by `n` keeps it consistent, also when the path was already present |
| IndexManagement.OrphanedAfterPersistFailure | src/core/index_manager.py:84-122 | when `persist` raises after vectors were appended, the unchanged mapping is inconsistent with the index, no document owns the new vectors, and `next_id` names the first of them |
| IndexManagement.RenumberedDocs | src/core/index_manager.py:189-200 | every document except the removed one has its ids renumbered; the key set is unchanged |
| IndexManagement.RemoveKeepsConsistent | src/core/index_manager.py:140-165 | compacting and renumbering after removing a document keeps the ledger consistent with the smaller index, and every renumbered id names the same vector as before |
| IndexManagement.RebuildConsistent | src/core/index_manager.py:258-272 | the ids a rebuild assigns are consistent with one vector per document |
| IndexManagement.TotalChunks | src/core/index_manager.py:259-272 | the `vector_id` accumulator: the number of documents of all paths so far; `AssignIds` and `ConcatLength` tie it to the loops |
| IndexManagement.Assigned | src/core/index_manager.py:259-270 | the mapping a rebuild records, paths taken in order; its properties are the rebuild lemmas below |
| IndexManagement.RebuildStampsEveryEntry | src/core/index_manager.py:264-269 | every path recorded by a rebuild carries the rebuild's timestamp and its own base name |
| IndexManagement.Concat | src/core/index_manager.py:243-245 | `all_documents`: the documents of every path, paths in order |
| IndexManagement.ConcatLength | src/core/index_manager.py:243-245 | the gathered list has exactly as many documents as the paths together |
| IndexManagement.RebuildIdsConsecutive | src/core/index_manager.py:259-270 | the `k`-th path owns the block of ids that starts after the documents of all earlier paths |
| IndexManagement.RebuildRecordsEveryPath | src/core/index_manager.py:260-269 | a rebuild records exactly the paths it is given |
| IndexManagement.PathsIff | src/core/index_manager.py:260 | a path is among those given exactly when some entry of the input carries it |
| IndexManagement.IndexManager.constructor | src/core/index_manager.py:21-30 | the mapping is the loaded one and the index the stored one; a fresh ledger is consistent |
| IndexManagement.IndexManager.GetDocumentInfo | src/core/index_manager.py:212-225 | counts the documents, reports `next_id` as the vector total and, per path, its file name, chunk count and timestamp |
| IndexManagement.IndexManager.IsDocumentIndexed | src/core/index_manager.py:291-293 | `is_document_indexed`: membership of the path in the mapping; its meaning is stated by `IndexedIffReported` and by the add and remove contracts |
| IndexManagement.IndexManager.IndexedIffReported | src/core/index_manager.py:212-225 | a path is indexed exactly when `get_document_info` lists it |
| IndexManagement.IndexManager.AddDocument | src/core/index_manager.py:66-122 | whatever `from_documents` appended stays in the index. If it or `persist` raised, the mapping is unchanged and the add fails, and a `persist` failure after appending leaves the ledger inconsistent. Otherwise the path gets ids `[next_id, next_id + n)`, `next_id` advances by `n` and the path is indexed, with consistency kept; a failed save still reports failure |
| IndexManagement.IndexManager.BuildKeepMask | src/core/index_manager.py:144-148 | the mask loop clears exactly the positions of removed ids below `ntotal`, counting negative ids from the end, and fails exactly when an id is below `-ntotal` |
| IndexManagement.IndexManager.RenumberList | src/core/index_manager.py:192-200 | the inner renumbering loop yields the renumbered id list |
| IndexManagement.IndexManager.UpdateMappingsAfterRemoval | src/core/index_manager.py:184-203 | an empty id list raises and changes nothing; otherwise every other document is renumbered and `next_id` drops by the number of removed ids |
| IndexManagement.IndexManager.RemoveDocument | src/core/index_manager.py:124-182 | an unknown path fails and changes nothing. A known path on an empty index is just deleted. Otherwise the index is compacted, the other ids are renumbered and the entry is deleted, except that an id below `-ntotal` or an empty id list fails with nothing changed. When saving raises, the removal has already happened in memory and the call reports the save's exception. Consistency is kept in every case, and a removed path is no longer indexed |
| IndexManagement.IndexManager.CombineDocuments | src/core/index_manager.py:243-245 | the gathering loop yields `Concat`: every path's documents, paths in order, as many as all paths have together |
| IndexManagement.IndexManager.AssignIds | src/core/index_manager.py:259-272 | the mapping loop produces the consecutive assignment of ids, and `vector_id` ends at the document total |
| IndexManagement.IndexManager.RebuildFullIndex | src/core/index_manager.py:227-289 | the reset always happens. With no documents the mapping stays empty although every path is counted. A `persist` failure leaves the appended vectors with an empty mapping, which is inconsistent. Otherwise the ids are assigned consecutively, `next_id` is the document total and the result is consistent, and a failed save still reports failure |
| DocumentProcessor.Suffix | src/core/document_processor.py:27 | `Path.suffix`: empty, or a dot-led tail of the name with no other dot and at least one more character |
| DocumentProcessor.PathName | src/core/document_processor.py:32 | `Path.name`: a final part of the path that holds no '/' |
| DocumentProcessor.Extension | src/core/document_processor.py:79 | `suffix.lower()`: empty, or a dot followed by at least one character, with no capital letter |
| DocumentProcessor.ValidateFile | src/core/document_processor.py:21-35 | valid exactly when the file exists, its lowercased suffix is supported and it is at most 100 MiB |
| DocumentProcessor.ProcessTextFile | src/core/document_processor.py:54-69 | a readable text file gives one document with its text and metadata `file_name`, `file_path`, `file_type = "text"`; a read error gives none |
| DocumentProcessor.ProcessFile | src/core/document_processor.py:37-52 | an invalid file gives nothing, a valid `.pdf` what the PDF reader returns, a valid `.txt` its text document; only those two produce documents |
| DocumentProcessor.GetFileInfo | src/core/document_processor.py:71-81 | "File not found" exactly for a missing file; otherwise its name, size, lowercased suffix and validity |
| DocumentProcessor.SizeLimitIsInclusive | src/core/document_processor.py:31-35 | exactly 100 MiB is accepted, one byte more is refused |
| DocumentProcessor.DocxIsValidButYieldsNothing | src/core/document_processor.py:43-49 | a valid `.docx` passes validation yet yields no document |
| DocumentProcessor.ValidTextFileYieldsOneDocument | src/core/document_processor.py:45-66 | a valid readable `.txt` gives exactly one document that carries its name and path |
| DocumentProcessor.UpperCasePdfIsSupported | src/core/document_processor.py:27 | "Report.PDF" has the supported suffix ".pdf" once lowercased; ".pdf" and "archive." have no suffix |
| Callbacks.AgentReasoningCallback.constructor | agents/base/callbacks.py:11-13 | no steps, and an empty current step |
| Callbacks.AgentReasoningCallback.GetSteps | agents/base/callbacks.py:59-61 | the steps with the current contents of their dicts |
| Callbacks.AgentReasoningCallback.OnChainStart | agents/base/callbacks.py:15-21 | one thinking step exactly when the lowercased chain name contains "agent", otherwise nothing |
| Callbacks.AgentReasoningCallback.OnAgentAction | agents/base/callbacks.py:23-31 | one tool decision step with tool, input and reasoning sentence, which is also the new current step |
| Callbacks.AgentReasoningCallback.OnToolStart | agents/base/callbacks.py:33-41 | one running tool execution step; the tool is "Unknown Tool" when unnamed |
| Callbacks.AgentReasoningCallback.OnToolEnd | agents/base/callbacks.py:43-50 | nothing while the current step is empty; otherwise the last tool decision already in `steps` gains `output` and one tool result step is appended, every other step unchanged |
| Callbacks.AgentReasoningCallback.OnAgentFinish | agents/base/callbacks.py:52-57 | one conclusion step |
| Callbacks.RecordedStepTypesAreKnown | agents/base/callbacks.py:17-57 | every step the recorder builds has one of the five types the chat UI shows |
| Callbacks.ThinkingStep | agents/base/callbacks.py:18-21 | the thinking step dict; `RecordedStepTypesAreKnown` gives its type |
| Callbacks.ToolDecisionStep | agents/base/callbacks.py:25-30 | the tool_decision dict with the tool, its input and the reasoning sentence; `RecordedDecisionShowsReasoning` shows how it is rendered |
| Callbacks.ReasoningSentence | agents/base/callbacks.py:29 | the reasoning f-string of a tool decision, naming the tool and its input |
| Callbacks.ToolExecutionStep | agents/base/callbacks.py:36-41 | the running tool_execution dict with the tool name and the searched input |
| Callbacks.ToolResultStep | agents/base/callbacks.py:47-50 | the tool_result dict |
| Callbacks.ConclusionStep | agents/base/callbacks.py:54-57 | the conclusion dict |
| Callbacks.AgentExecutorIsAnAgentChain | agents/base/callbacks.py:17 | "AgentExecutor" counts as an agent chain regardless of case; a chain without a name does not |
| Callbacks.IsAgentChain | agents/base/callbacks.py:17 | a chain without a name is never an agent chain, since the default name is empty |
| Routes.AllowedFileIff | src/api/routes.py:21-22 | a name is allowed exactly when it has a last '.' and the lowercased text after it is pdf, txt or docx |
| Routes.AllowedFile | src/api/routes.py:21-22 | an allowed name always contains a '.'; `AllowedFileIff` gives the exact rule |
| Routes.AllowedFileExamples | src/api/routes.py:21-22 | "A.PDF" and "x.tar.pdf" are allowed, "pdf" and "a." are not |
| Routes.FilterIsOrderedSelection | src/api/routes.py:105-120 | a list built by appending the passing items is a subsequence of the input holding exactly the items that pass |
| Routes.Filter | src/api/routes.py:61-65 | the list the handlers build by appending the items that pass, in order; never longer than its input |
| Routes.SizeLimitIsInclusive | src/api/routes.py:107-115 | an allowed upload of exactly 100 MiB is kept, one byte more is skipped |
| Routes.Admitted | src/api/routes.py:107-115 | the upload loop keeps a file exactly when it is truthy, its name is allowed and it is at most 100 MiB; `SizeLimitIsInclusive` and `SaveAdmittedUploads` state its consequences |
| Routes.SecuredNames | src/api/routes.py:117-120 | one recorded name per kept file, in order, each the secured form of the file's name |
| Routes.SaveAdmittedUploads | src/api/routes.py:104-120 | `uploaded_files` is the secured name of every kept upload, in input order |
| Routes.CollectDataFiles | src/api/routes.py:61-65 | `data_files` is every allowed name of the data directory, in walk order |
| Routes.Server.constructor | src/api/routes.py:19 | no query engine is loaded |
| Routes.Server.GetQueryEngine | src/api/routes.py:24-34 | the cached engine is returned; without one the loaded engine is returned and cached, and a failed load returns none |
| Routes.Server.BuildIndex | src/api/routes.py:56-92 | 400 when no allowed file exists, 500 when building raises, otherwise 200 with the files and a freshly loaded engine |
| Routes.Server.UploadAndIndex | src/api/routes.py:94-147 | 400 without a `files` field, 400 when no upload is kept, 500 when saving an upload or building raises, otherwise 200 with the kept names and a freshly loaded engine |
| Routes.Server.Query | src/api/routes.py:149-184 | 500 with the exception's text when `get_json()` raises (not JSON, or unparsable), 400 for a JSON `null` or an object without `query`, then 503 without an engine, then the answer or 500 when answering raises; the engine is cached |
| Routes.DottedExtension | src/api/routes.py:22 | a dot followed by a tail is a supported suffix exactly when the tail is an allowed extension |
| Routes.AdmissionRulesAgree | src/api/routes.py:21-22 | `allowed_file` and the suffix test of `validate_file` agree on every name except those whose last dot is their first character |
| Routes.HiddenPdfIsAllowedButInvalid | src/api/routes.py:21-22 | ".pdf" passes `allowed_file` but not `validate_file` |
| StreamlitChat.StepText | streamlit_chat.py:117 | the text of a tool decision is never empty |
| StreamlitChat.StepTextPrecedence | streamlit_chat.py:117 | a non-empty `reasoning` is shown; failing that a non-empty `content`; failing both "Using " and the tool's name, or "Using tool" |
| StreamlitChat.RenderStep | streamlit_chat.py:112-127 | a step is shown exactly when its type is one of the five known ones; a missing or other type shows nothing |
| StreamlitChat.RenderAll | streamlit_chat.py:110-129 | no more steps are shown than there are |
| StreamlitChat.RenderAllCountsKnownSteps | streamlit_chat.py:110-129 | exactly the steps of a known type are shown, so a list of recorder steps is shown in full |
| StreamlitChat.RecordedDecisionShowsReasoning | streamlit_chat.py:187-190 | a recorded tool decision is shown under "Using tool" with its reasoning sentence |
| StreamlitChat.BareDecisionNamesTool | streamlit_chat.py:189 | a decision without reasoning or content reads "Using" and the tool name, or "Using tool" |
| StreamlitChat.ViewHistory | streamlit_chat.py:98-133 | the history shows each message in order, an assistant message with its reasoning when enabled |
| StreamlitChat.Reasoning | streamlit_chat.py:108-127 | steps are shown only when reasoning is on and the message has steps, and then as `RenderAll` renders them |
| StreamlitChat.ViewMessage | streamlit_chat.py:98-133 | a user message is shown as its content, an assistant message as its reasoning and content; `ViewHistory` applies it to every message |
| StreamlitChat.AfterPromptGrowth | streamlit_chat.py:146-223 | a prompt adds nothing when falsy, else the user message and then the answer exactly when the reply is a parsed 200; earlier messages are untouched |
| StreamlitChat.AfterPrompt | streamlit_chat.py:146-223 | handling a prompt only appends to the history: the earlier messages stay as they were |
| StreamlitChat.Truthy | streamlit_chat.py:146 | `if prompt:`: a prompt counts when it is present and not empty |
| StreamlitChat.AnsweredBody | streamlit_chat.py:170-172 | a reply is answered only with status 200 and a body that parses as an object |
| StreamlitChat.AfterPromptKeepsPairing | streamlit_chat.py:146-223 | every assistant message directly follows a non-empty user message |
| StreamlitChat.EmptyAnswerTakesDefaults | streamlit_chat.py:172-174 | a reply without `response` and `steps` is saved as "No response received" with no steps |
| StreamlitChat.AssistantEntry | streamlit_chat.py:173-174 | the assistant entry saved at lines 219-223: the response and steps of the body, with their defaults; `EmptyAnswerTakesDefaults` states the defaults |
| StreamlitChat.LastClicked | streamlit_chat.py:88-91 | the last clicked example button, if any |
| StreamlitChat.RevealProperties | streamlit_chat.py:209-216 | the snapshots are prefixes of strictly growing length, the last is the whole answer, and an empty answer has none |
| StreamlitChat.Reveal | streamlit_chat.py:206-214 | the reveal loop shows `resp[:i+5]` for `i = 0, 5, 10, ...` below the answer's length |
| StreamlitChat.Session.constructor | streamlit_chat.py:57 | a new session has no history and no pending example |
| StreamlitChat.Session.InitMessages | streamlit_chat.py:57-58 | the history becomes empty only when absent |
| StreamlitChat.Session.ClearChat | streamlit_chat.py:65-67 | Clear Chat empties the history |
| StreamlitChat.Session.ClickExamples | streamlit_chat.py:80-91 | a clicked example becomes the pending message, the last clicked one winning |
| StreamlitChat.Session.TakePrompt | streamlit_chat.py:139-143 | a pending example takes precedence over typed input and is consumed |
| StreamlitChat.Session.ProcessPrompt | streamlit_chat.py:146-242 | the history grows as `AfterPrompt` says. Each reply kind is shown as its error or answer. A saved answer is shown in the history as it was shown live |
| StreamlitChat.Session.Run | streamlit_chat.py:56-242 | one script run: Clear Chat empties the history and reruns; otherwise the pending or typed prompt is handled and the earlier history is shown |

## Left out

- FAISS and llama_index are not modelled. Embeddings are opaque vectors and the flat index is their sequence. `from_documents`, `persist` and storage loading are the `indexing` parameter, and `reconstruct_n` reads the sequence.
- `from_documents` is taken to append either all of its vectors or, when it raises, none of them.
- Writing `document_mapping.json` and `faiss.index` to disk is not modelled. Only whether saving raised is modelled: through `indexing` when adding or rebuilding, and through `saveError` when removing. The files left on disk when one save went through and the other raised are not modelled.
- The lazy `get_faiss_index` and `get_vector_store` are not modelled: the index is always present, and `vector_store = None` has no effect here.
- `datetime.now()` is called per document; the model passes one timestamp per call.
- IndexManagement.IndexManager.AddDocument: consistency is promised only when the embedding adds exactly one vector per document. `next_id` advances by `len(documents)` while llama_index may split a document into several vectors, and then the ledger no longer matches the index.
- IndexManagement.IndexManager.RemoveDocument: the IndexError raised for an id below `-ntotal` is returned as a fixed text that only marks the exception's kind; numpy's own message, which names the id and the size, is not reproduced.
- IndexManagement.IndexManager.constructor: a stored mapping or index is taken as read. The source never checks them against each other, so consistency is promised only for a fresh ledger.
- IndexManagement.IndexManager.RebuildFullIndex: consistency is promised only when the embedding returns one vector per document, for the same reason as for adding.
- Text.Lower: `str.lower()` is modelled for ASCII letters only; other Unicode case mappings are left out.
- DocumentProcessor.PathName: `Path.name` is modelled as `os.path.basename`; pathlib's normalisation of trailing slashes and `.` components is left out.
- The PDF reader is not modelled; it is a parameter giving the pages or the exception. Reading a text file is also a parameter, giving the text or the exception.
- JSON values that are not strings are not modelled: step dicts and request bodies are string-to-string maps.
- Routes.Server.Query: a JSON body that is not an object (a list, a string, a number or a boolean) is not modelled, because `'query' in data` and `data['query']` then depend on Python's behaviour for that type. A `response` that is not a string is left out, and so is a step list that is not a list.
- The `serve_ui`, `health_check` and `index_status` handlers and the 413 error handler are not modelled: they are constant replies or filesystem glue, and `index_status` reuses `allowed_file` as modelled.
- `secure_filename` is not modelled; it is a parameter. Saving uploads, seeking to measure their size and `os.walk` are replaced by the names and sizes they yield.
- Streamlit rendering is not modelled: layout, CSS, markdown, the cursor character, the "---" separators, `time.sleep` and the 30-second request timeout are left out. What is shown is modelled as captions, texts and snapshots. Error messages are modelled by their kind, and the HTTP status's details by the response text.
