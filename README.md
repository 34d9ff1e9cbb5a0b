# Speech-practice back end: a verified model

This project models the core of a pronunciation-practice back end. A user uploads a
recording and the text they were asked to read. The service does the following:

- it transcribes the recording;
- it compares the transcription with the expected text word by word, using Python's
  `difflib.SequenceMatcher`;
- it synthesizes a corrective clip for every replaced word and stores the clip under
  `assets/audio_changes/`;
- it returns the list of changes.

The project also models:

- the text-to-speech route and the clip-retrieval route;
- the OpenAI-backed provider: preparing prompts, its guards and fallbacks, and speech
  synthesis that turns failures into "no stream";
- the persistence of project records in a document store: pagination, find-or-create,
  index creation;
- the project record's validation;
- the base controller's asset directories, random identifiers and database paths.

The modules follow the program's files:

| module | file | models |
|---|---|---|
| `Wrappers` | `wrappers.dfy` | `Option`, `Result` |
| `Text` | `text.dfy` | Python's `str.split()`, `strip`, `startswith`, slicing `s[:n]`, `isalnum`, `" ".join` |
| `Paths` | `paths.dfy` | `os.path.join`, `dirname`, `splitext` |
| `FileSystem` | `file_system.dfy` | the disk as a value: files, directories, paths whose writes fail |
| `Difflib` | `difflib.dfy` | `find_longest_match`, `get_matching_blocks`, `get_opcodes`, with no junk heuristic |
| `VoiceController` | `voice_controller.dfy` | `VoiceController.py` |
| `VoiceRoutes` | `voice_routes.dfy` | `routes/voice.py` |
| `OpenAIProvider` | `openai_provider.dfy` | `OpenAIProvider.py` |
| `ProjectScheme` | `project_scheme.dfy` | `db_schemes/project.py` |
| `ProjectModel` | `project_model.dfy` | `ProjectModel.py` |
| `BaseController` | `base_controller.dfy` | `BaseController.py` |

How effects are modelled:

- The file system is a `Disk` value that the request methods take and return.
- The remote services are parameters. Transcription, speech, chat completion and embedding
  are functions that return a result or an exception's message.
- The random sources are also parameters:
  - `uuid4` is a sequence of identifiers;
  - the temporary file's name is a stem;
  - `random.choices` is a sequence of draws.
- The document store is a pair of objects. A `Collection` holds records, indexes and the next
  identifier. A `Database` holds the collection names and an optional failure that every store
  call then raises.

## Behaviour worth knowing

- **Direction of the diff.** `process_transcription` calls
  `compare_texts(transcribed, expected)`. This has three consequences:
  - an expected word the speaker skipped is reported as **added**;
  - an extra spoken word is reported as **removed**;
  - in a replacement, `original` is the expected word and `replacement` is the word that was
    heard.

  The model keeps this direction (`ChangeOf`, `DiffOfLastChanged`, `DiffOfOneChanged`).
- **What is voiced.** The clip is synthesized from `original`, the expected words.
- **Cleanup of the temporary file.** `process_transcription` records the temporary path only
  after the upload has been written into it, and its `finally` block removes only a recorded
  path. If reading or writing the upload fails, the empty temporary file stays on disk.
  `ProcessTranscription` states this exactly, in its `Created && !Staged` ensures clause.
- **A failed clip write keeps its directory.** `os.makedirs` runs before the clip is written,
  so a request that fails on the write still leaves the audio directory behind. `StoreClip`
  and `ProcessTranscription` state the disk that remains.
- **Entries for added and removed words.** Their entries carry only their `type`, because the
  controller copies nothing else into the response.
- **Clip URLs do not round-trip.** The URL of a replacement clip is
  `/audio/{id}_replacement.mp3`, and the text-to-speech route returns `{id}_tts.mp3`.
  `GET /audio/{audio_id}` appends `.mp3` again, so neither name finds its clip. The clip is
  served under the name without the extension. `TtsRoundTrip` and `ReplacementRoundTrip`
  prove both facts. The router is also mounted under the prefix `/api/v1/voice`
  (src/routes/voice.py:17-20), so the announced `/audio/{id}_replacement.mp3` does not reach
  `get_audio` at all; the clip is served at `/api/v1/voice/audio/{id}_replacement`. The model
  takes the path after the prefix and does not model routing.
- **File-system errors carry Python's text.** A failed `os.makedirs` or `open` raises an
  `OSError` whose text is `[Errno N] <message>: '<path as passed>'`, and the path is the
  relative one the code passed (`assets/audio_changes`, `assets/audio_changes/{id}_replacement.mp3`,
  `assets/audio_changes/{id}_tts.mp3`). The controller and the text-to-speech route raise that
  text (`OsErrorText`). A failed write into the already open temporary file has no file name
  in its text (`OsErrorTextNoPath`).

## Model

| member | source | states |
|---|---|---|
| VoiceController.Synthesize | src/controllers/VoiceController.py:17-24 | the controller's speech wrapper gives a stream exactly when the engine produces one, and that stream; an exception or no audio gives nothing |
| Difflib.FindLongestMatch | src/controllers/VoiceController.py:28 | the match is a longest common run in the given ranges, the earliest in the first sequence, then in the second (the documented `find_longest_match` contract) |
| Difflib.LongestMatchUnique | src/controllers/VoiceController.py:28 | that contract determines the match: two matches meeting it are equal |
| Difflib.Blocks | src/controllers/VoiceController.py:28-30 | the matching blocks form an increasing chain inside the ranges, and both sequences agree on every block |
| Difflib.Collapse | src/controllers/VoiceController.py:28-30 | merging adjacent blocks leaves only non-empty blocks, and a non-empty block being extended stays first, at its start, never shrinking |
| Difflib.MatchingBlocks | src/controllers/VoiceController.py:28-30 | the matching blocks are non-empty, increase in both lists, both lists agree on each, and the sentinel `(len(a), len(b), 0)` ends them |
| Difflib.CollapseNonTouching | src/controllers/VoiceController.py:28-30 | merging adjacent blocks of an ordered chain leaves no two consecutive blocks touching: each ends before the next starts in one of the two lists |
| Difflib.MatchingBlocksNotAdjacent | src/controllers/VoiceController.py:28-30 | as `get_matching_blocks` documents, for adjacent triples `(i, j, n)`, `(i', j', n')` where the second is not the sentinel, `i+n < i'` or `j+n < j'` |
| Difflib.Opcodes | src/controllers/VoiceController.py:30 | the opcodes cover both token lists from the start, contiguously and in order; equal spans agree, replace spans are non-empty on both sides, insert and delete spans are empty on exactly one side |
| Difflib.OpcodesReplay | src/controllers/VoiceController.py:30 | replaying the opcodes against the first list rebuilds the second list, and their first-side spans are exactly the first list |
| Difflib.OpcodesOfIdentical | src/controllers/VoiceController.py:30 | identical lists give one `equal` opcode over everything, or none when empty |
| Difflib.OpcodesOfLastChanged | src/controllers/VoiceController.py:30 | lists that differ only in their last token give one `equal` opcode and then one `replace` of that token |
| Difflib.OpcodesOfOneChanged | src/controllers/VoiceController.py:30 | two different single tokens give one `replace` of the one by the other |
| VoiceController.NonEqual | src/controllers/VoiceController.py:30-32 | every opcode kept is one of the input's and is not `equal` |
| VoiceController.NonEqualComplete | src/controllers/VoiceController.py:30-32 | every opcode of the input that is not `equal` is kept |
| VoiceController.NonEqualAppend | src/controllers/VoiceController.py:30-32 | skipping the `equal` opcodes of a concatenation skips them in each part, in order |
| VoiceController.ChangeOf | src/controllers/VoiceController.py:33-42 | an insert is recorded as an addition, a delete as a removal, a replace as a replacement |
| VoiceController.Changes | src/controllers/VoiceController.py:30-43 | one change per opcode that is not `equal` |
| VoiceController.Diff | src/controllers/VoiceController.py:28-43 | one change per opcode of the two word lists that is not `equal` |
| VoiceController.Compare | src/controllers/VoiceController.py:26-43 | one change per opcode of the two texts' `split()` words that is not `equal` |
| VoiceController.ChangesFollowOpcodes | src/controllers/VoiceController.py:30-42 | one change per non-`equal` opcode, in order: an insert gives an addition of second-list words, a delete a removal of first-list words, a replace pairs second-list words (original) with first-list words (replacement) |
| VoiceController.CollectChanges | src/controllers/VoiceController.py:29-43 | the loop over the opcodes builds exactly their change list |
| VoiceController.CompareTexts | src/controllers/VoiceController.py:26-43 | `compare_texts` returns the change list of the two texts' `split()` words |
| VoiceController.DiffOfIdentical | src/controllers/VoiceController.py:28-43 | identical word lists have no changes |
| VoiceController.SameWordsNoChanges | src/controllers/VoiceController.py:28 | texts with the same words have no changes, whatever their spacing |
| VoiceController.DiffOfLastChanged | src/controllers/VoiceController.py:37-42 | a final word that differs is one replacement, whose original is the second text's word and whose replacement is the first text's |
| VoiceController.DiffOfOneChanged | src/controllers/VoiceController.py:37-42 | two different single words are one replacement, whose original is the second list's word and whose replacement is the first list's |
| VoiceController.ReplacementDir | src/controllers/VoiceController.py:93-94 | the directory created before writing a clip is `assets/audio_changes` |
| VoiceController.RemoveQuietly | src/controllers/VoiceController.py:103-108 | removing the temporary file deletes exactly that file when it exists and its path is not faulty; otherwise the failure is swallowed and the files are unchanged; directories and faulty paths never change |
| VoiceController.Step | src/controllers/VoiceController.py:82-100 | one pass of the loop gives one entry describing its change, draws at most one identifier and removes no file or directory; it can fail only for a replacement the engine voiced, and then writes no file |
| VoiceController.Enrich | src/controllers/VoiceController.py:82-100 | a finished loop gives one entry per change and draws identifiers only forward; finished or stopped by an error, it removes no file or directory |
| VoiceController.EnrichDescribes | src/controllers/VoiceController.py:82-100 | a finished loop gives one entry per change, in order, with the change's type, the original and replacement of a replacement, and a clip URL exactly when the engine voiced the original; no file or directory disappears |
| VoiceController.ReplacementPathsDistinct | src/controllers/VoiceController.py:92-93 | distinct identifiers give distinct clip paths |
| VoiceController.EnrichStoresClips | src/controllers/VoiceController.py:89-98 | given distinct identifiers, every announced URL names the clip of an identifier drawn during the loop, and that file holds the engine's stream for the original words |
| VoiceController.EnrichStopsAtError | src/controllers/VoiceController.py:82-100 | the first file-system error in the loop is the error of the whole loop |
| VoiceController.Response | src/controllers/VoiceController.py:45-102 | a response exists only for a staged upload whose transcription succeeded; it holds the expected text, no confidence score, and one entry per difference between the stripped transcription and the expected text |
| VoiceController.ResponseDescribes | src/controllers/VoiceController.py:64-102 | a successful response holds the stripped transcription, the expected text and no confidence score, with one entry per difference between the two, in order |
| VoiceController.Controller.constructor | src/controllers/VoiceController.py:11-15 | the controller keeps its client and starts with an empty audio store |
| VoiceController.Controller.ClearStorage | src/controllers/VoiceController.py:112-114 | the audio store is empty afterwards |
| VoiceController.Controller.AnnotateChanges | src/controllers/VoiceController.py:81-100 | the loop's entries and disk are those of the loop specification; when it stops, its error and the disk the failed step left are those of the specification; the temporary file survives, directories only grow |
| VoiceController.Controller.AnnotateChange | src/controllers/VoiceController.py:82-98 | one pass of the loop yields exactly the loop specification's step for the change (its entry, disk and identifiers drawn), or that step's error with the disk it left; no file disappears, faulty paths stay, directories only grow |
| VoiceController.Controller.StoreClip | src/controllers/VoiceController.py:93-97 | creating the audio directory and then writing the clip gives exactly the clip specification's disk, or its first error together with the disk the failure left (the directory made before a failed write stays); the error names the path as the code passed it, `assets/audio_changes` or the relative clip path |
| VoiceController.SaveClip | src/controllers/VoiceController.py:93-97 | a successful save writes exactly the identifier's clip file with the stream, leaves every other file and the faulty paths as they were, and only adds directories; a failed save writes no file and adds at most the audio directory; the error names the path as the code passed it, `assets/audio_changes` or the relative clip path |
| VoiceController.Controller.ProcessTranscription | src/controllers/VoiceController.py:45-108 | a missing content type raises; a non-audio type is 400 with the controller's message; before the temporary file exists the disk is unchanged; a failed creation of the temporary file raises `[Errno N] <message>: '<path>'`; a file created but not written stays, empty, and the call raises `[Errno N] <message>`; once staged, the temporary file is always removed: a failed transcription raises its message, a stopped loop raises its file-system error as `[Errno N] <message>: '<relative path>'`, and the final disk is the one that success, the failed transcription or the stopped loop left, with the temporary file quietly removed; success exactly when the response specification has one, and then that response |
| VoiceRoutes.ToHttp | src/routes/voice.py:56-59 | an HTTP error passes unchanged, any other exception becomes 500 with its message |
| Text.Decimal | src/routes/voice.py:59 | `str(n)` of an error number: non-empty decimal digits with no leading zero |
| Text.DecimalRoundTrip | src/routes/voice.py:59 | reading the digits back gives the number |
| FileSystem.AsPassed | src/controllers/VoiceController.py:93-97 | an error keeps its number and message and names the path as the code passed it, not the resolved one |
| FileSystem.ErrnoNumerals | src/routes/voice.py:59 | the error numbers print as Python prints them: `2`, `13`, `17`, `21` (`ENOENT`, `EACCES`, `EEXIST`, `EISDIR`) |
| VoiceRoutes.TranscribeAudio | src/routes/voice.py:31-59 | a non-audio type is 400 with the route's message, a missing type 500; every failure is an HTTP error with status 400 or 500; before the temporary file exists the disk is unchanged; once staged, the temporary file is removed, a failed transcription or a stopped loop is 500 with its message (Python's `[Errno N] <message>: '<path>'` for a file-system error), and the final disk is the controller's; success is the controller's response with an empty prompt |
| VoiceRoutes.TtsDir | src/routes/voice.py:82-83 | the directory created for a synthesized clip is the audio directory, also after resolution against the working directory |
| VoiceRoutes.TextToSpeech | src/routes/voice.py:69-92 | no stream is 500 "Failed to generate speech" with the disk unchanged; success returns `{id}_tts.mp3` after storing the stream under the audio directory, and is guaranteed once the directory can be made and the path is writable; other files are unchanged; a directory that cannot be made or a path that cannot be written raises `[Errno N] <message>: '<relative path>'`, and the failed directory leaves the disk unchanged |
| VoiceRoutes.GetAudio | src/routes/voice.py:103-123 | the file's bytes exactly when a non-empty file is at `{audio_id}.mp3` in the absolute audio directory; 404 when nothing exists there; 500 when the file is empty |
| VoiceRoutes.AudioPathResolves | src/routes/voice.py:109-110 | a relative id names `assets/audio_changes/{audio_id}.mp3` under the working directory; an id that starts with `/` escapes it |
| VoiceRoutes.TtsRoundTrip | src/routes/voice.py:82-88 | a stored synthesized clip is served as `{id}_tts`; the returned name `{id}_tts.mp3` finds it only if a `.mp3.mp3` file exists |
| VoiceRoutes.ReplacementRoundTrip | src/routes/voice.py:103-118 | a replacement clip is served as `{id}_replacement`; the last segment of its announced URL is looked up with a second `.mp3` |
| OpenAIProvider.ClientBaseUrl | src/stores/llm/providers/OpenAIProvider.py:27-30 | the client gets the configured base URL exactly when it is present and non-empty |
| OpenAIProvider.ProcessText | src/stores/llm/providers/OpenAIProvider.py:42-43 | prepared text is no longer than the input, nor than a non-negative bound; it has no surrounding whitespace; text that fits is just stripped |
| OpenAIProvider.ProcessTextIdempotent | src/stores/llm/providers/OpenAIProvider.py:42-43 | for a non-negative bound, preparing prepared text again changes nothing |
| OpenAIProvider.ProcessTextNegativeBound | src/stores/llm/providers/OpenAIProvider.py:42-43 | a negative bound counts from the end, so preparing `"ab"` with bound -1 gives `"a"`, and again gives `""` |
| OpenAIProvider.OutputTokens | src/stores/llm/providers/OpenAIProvider.py:56 | the given token limit unless it is missing or 0, and then the default |
| OpenAIProvider.ReplyText | src/stores/llm/providers/OpenAIProvider.py:70-74 | nothing when the response, its choices or the first message is missing; otherwise that message's content |
| OpenAIProvider.EmbeddingOf | src/stores/llm/providers/OpenAIProvider.py:93-97 | the first vector exactly when the response, its data and that vector are present and non-empty |
| OpenAIProvider.Provider.constructor | src/stores/llm/providers/OpenAIProvider.py:10-33 | the defaults are kept (1000 and 1000 unless given); no model is set; the client carries the key and the base URL |
| OpenAIProvider.Provider.SetGenerationModel | src/stores/llm/providers/OpenAIProvider.py:35-36 | sets the generation model and nothing else |
| OpenAIProvider.Provider.SetEmbeddingModel | src/stores/llm/providers/OpenAIProvider.py:38-40 | sets the embedding model and size and nothing else |
| OpenAIProvider.Provider.ConstructPrompt | src/stores/llm/providers/OpenAIProvider.py:99-103 | the message keeps the role, and its content is the prepared prompt |
| OpenAIProvider.Provider.GenerateText | src/stores/llm/providers/OpenAIProvider.py:45-74 | without a client or a generation model: nothing, and the history is unchanged; otherwise one user message with the prepared prompt is appended in place, the service's exception propagates, and the reply is the first choice's content |
| OpenAIProvider.GenerateTwice | src/stores/llm/providers/OpenAIProvider.py:45-61 | calls without a history share one default list, which grows by one message per call |
| OpenAIProvider.Provider.EmbedText | src/stores/llm/providers/OpenAIProvider.py:78-97 | nothing without a client or an embedding model; otherwise the service's exception or the first vector of its answer |
| OpenAIProvider.Provider.TextToSpeech | src/stores/llm/providers/OpenAIProvider.py:117-139 | the stream exactly when the service returns one; an exception gives nothing |
| ProjectScheme.ValidateProjectId | src/models/db_schemes/project.py:14-25 | accepted exactly when alphanumeric, and returned unchanged; empty is the length error, and a non-alphanumeric value is "project_id must be alphanumeric" |
| ProjectScheme.NewProject | src/models/db_schemes/project.py:12-25 | building a project fails exactly when its id fails validation; otherwise it holds the given identifier (none by default) and id |
| ProjectScheme.ToDocument | src/models/db_schemes/project.py:13-14 | the document has `project_id`, and has `_id` exactly when an identifier was set |
| ProjectScheme.FromDocument | src/models/db_schemes/project.py:13-29 | a document loads exactly when `_id`, if present, holds an `ObjectId` and `project_id` is present, text and valid; a non-`ObjectId` `_id` is an instance error and a missing `project_id` "Field required"; the identifier is present exactly when `_id` is, and is its value |
| ProjectScheme.DocumentRoundTrip | src/models/db_schemes/project.py:13-14 | a valid project survives the trip to a document and back, with its identifier kept under `_id` |
| ProjectScheme.GetIndexes | src/models/db_schemes/project.py:31-44 | exactly one index: unique, ascending on `project_id`, named `project_id_index_1` |
| ProjectModel.FloorDiv | src/models/ProjectModel.py:101 | Python's `//`: the quotient rounded down, for either sign of divisor |
| ProjectModel.GetAllProjects | src/models/ProjectModel.py:86-108 | a failing store is a wrapped `RuntimeError`; page size 0 is an unwrapped `ZeroDivisionError`; a negative offset is a `ValueError`; otherwise at most the page size of consecutive records from offset `(page-1)*page_size`; a page is short only at the end; the page count is `(total + page_size - 1) // page_size` |
| ProjectModel.PageCountIsCeiling | src/models/ProjectModel.py:101 | for a positive page size, the page count is the least n with n times page_size at least the total |
| ProjectModel.EveryRecordOnItsPage | src/models/ProjectModel.py:101-103 | record i is item `i % page_size` of page `i // page_size + 1`, and that page is within the page count |
| ProjectModel.PagesAfterTheLastAreEmpty | src/models/ProjectModel.py:101-105 | a page after the last one is empty |
| ProjectModel.DefaultPageIsFirstTen | src/models/ProjectModel.py:86 | the default call returns the first ten records |
| ProjectModel.FindOne | src/models/ProjectModel.py:75 | the first record with that project id, or nothing exactly when there is none |
| ProjectModel.FindOneAfterAppend | src/models/ProjectModel.py:75-80 | after inserting a record with an id, that id is found; an earlier match stays first |
| ProjectModel.AddIndex | src/models/ProjectModel.py:37-41 | creating an index keeps every index; it fails exactly when a different index has the same name |
| ProjectModel.AddIndexesToEmpty | src/models/ProjectModel.py:35-41 | creating indexes with distinct names in a collection without indexes gives exactly those indexes, with no failure |
| ProjectModel.AddIndexesContains | src/models/ProjectModel.py:36-41 | earlier indexes are kept, and after success every requested index is present |
| ProjectModel.ProjectModel.InitCollection | src/models/ProjectModel.py:25-43 | a failing store is "Failed to initialize collection"; a listed collection is untouched; an unlisted one gets exactly the `get_indexes` indexes and becomes listed |
| ProjectModel.ProjectModel.CreateProject | src/models/ProjectModel.py:45-62 | the same object is returned, with its identifier set to the inserted one (a fresh identifier when unset); the record is appended; a failing store or an identifier in use is a `RuntimeError` and nothing changes |
| ProjectModel.ProjectModel.GetProjectOrCreateOne | src/models/ProjectModel.py:64-84 | an existing record is returned as a new project and nothing is inserted; otherwise a valid id inserts exactly one record and returns it; an invalid id is an unwrapped `ValidationError`; a failing store is a `RuntimeError` |
| ProjectModel.ProjectModel.GetProjectOrCreateTwice | src/models/ProjectModel.py:75-82 | two calls with the same id insert at most one record, and after a successful first call the second returns the same identifier |
| ProjectModel.CreateInstance | src/models/ProjectModel.py:16-23 | the model comes back with its collection initialised, or the initialisation error |
| BaseController.Controller.constructor | src/controllers/BaseController.py:8-21 | the base directory is two `dirname`s above the module; the files and database directories are `assets/files` and `assets/database` in it |
| BaseController.LayoutOfRoot | src/controllers/BaseController.py:12 | for a module at `root/package/file`, the base directory is `root` |
| BaseController.Controller.GenerateRandomString | src/controllers/BaseController.py:23-32 | exactly `length` characters (12 by default, none for a negative length), each a lowercase ASCII letter or a digit |
| BaseController.AlphabetIsLowerAndDigits | src/controllers/BaseController.py:32 | the alphabet is the 36 lowercase letters and digits and holds every one of them |
| BaseController.EveryStringCanBeDrawn | src/controllers/BaseController.py:32 | every string of lowercase letters and digits is produced by some sequence of draws |
| BaseController.Controller.GetDatabasePath | src/controllers/BaseController.py:34-53 | the path is the database directory joined with the name, returned whether or not creating it fails; on success the directory exists and a second creation changes nothing |

## Left out

- The junk heuristic of `SequenceMatcher` is left out. For sequences of 200 or more tokens,
  `autojunk` discards popular tokens, and the model does not. It computes the alignment
  without junk for every input, which is the library's result for shorter inputs.
- Unicode is not modelled.
  - Whitespace is Python's `str.isspace` set.
  - `isalnum` is ASCII letters and digits only.
- Remote services are oracles: transcription, speech, chat completion and embedding. So are
  `uuid4`, the temporary file's random name and `random.choices`. The model does not reason
  about probability, so identifier uniqueness is stated as the hypothesis `Injective`.
- `OpenAIProvider.transcribe` is the transcription oracle. Opening the audio file and the
  remote call are not modelled.
- The generation temperature is left out, because it is floating point.
- `LLMEnums` is not part of this model. The user role is taken to be "user".
- `DataBaseEnum` is not part of this model. The collection name is a parameter.
- MongoDB itself is not modelled: connections, cursors, and the enforcement of the unique
  index on insert. The store keeps records in insertion order, and its errors are one
  message.
- Request validation by the web framework is not modelled. This includes the `min_length`
  of the text-to-speech request and 422 responses for missing form fields.
- VoiceRoutes.GetAudio: a failure of `os.stat`, which the route turns into a 500 "Unexpected error", is
  not modelled. A directory at the path is an exception raised when the file is served.
- The route's `audio_id`, a path segment, cannot contain `/` in the running program. The
  model accepts any string and proves what such an id would name.
- Logging, `print` and `get_settings` are not modelled, since they have no effect on results.
- The error number of a failed write into the already open temporary file is the one the
  faulty path carries. Which number a real device reports (`ENOSPC`, say) is not modelled.
- `os.makedirs` creates a single directory level in the model. Missing parent directories are
  not modelled.
- ProjectModel.GetAllProjects: takes a snapshot of the collection's records, plus the store's
  failure, instead of reading the collection object.
- ProjectModel.ProjectModel.InitCollection: requires `Consistent()`: a collection the
  database does not list holds nothing. A real store guarantees this, and the model states it
  as a precondition.
- ProjectModel.ProjectModel.CreateProject: requires `Consistent()`, for the same reason.
- ProjectModel.ProjectModel.GetProjectOrCreateOne: requires `Consistent()`, for the same reason.
- ProjectModel.ProjectModel.GetProjectOrCreateTwice: requires `Consistent()`, for the same reason.
