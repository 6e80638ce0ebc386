# AURA core, modelled in Dafny

AURA is a voice and chat companion. It has three parts:

- **The voice agent** uses a local text-to-speech plugin. The plugin lazily loads one speech model and serialises every inference on it. It turns each generated waveform into 16-bit PCM. It drives two streams: a whole-text stream that pushes one buffer, and a sentence stream that pushes one buffer per non-blank sentence from a tokenizer.
- **The AI service** does three things:
  - It ingests documents for retrieval: it extracts text by file suffix, splits it into chunks, embeds and inserts the chunks in batches of 100, and logs each batch.
  - It searches them and formats every match as `[From <source>]:\n<content>`.
  - It builds the prompt for the language model from a persona template with the current time filled in, and generates the reply in a graph node.
- **The dashboard** is a React app. Its chat input trims and sends messages. Its sidebar groups conversations into Today / Yesterday / Older. Its call overlay connects to a voice room and counts elapsed seconds. Its knowledge-base panel shows an icon and a size label per file and keeps its file list in step with uploads and deletions.

The model has one Dafny module per source file, plus a shared `Base` module:

| module | models |
|---|---|
| `Base` | Option; whitespace trimming (`str.strip` / `String.trim`); ASCII lower-casing; substring search; decimal text |
| `AuraTts` | `voice-agent/aura_tts.py` |
| `RagService` | `ai-service/app/services/rag_service.py` |
| `Prompter` | `ai-service/app/services/prompter.py` |
| `GenerateNode` | `ai-service/app/services/brain/nodes/generate.py` |
| `ChatInput` | `dashboard/src/components/ChatInput.jsx` |
| `Sidebar` | `dashboard/src/components/Sidebar.jsx` |
| `CallOverlay` | `dashboard/src/components/CallOverlay.jsx` |
| `KnowledgeBase` | `dashboard/src/components/KnowledgeBase.jsx` |

Some objects change state in place:

- the TTS plugin, the output emitter, the tokenizer stream and the two stream kinds;
- the document store and the RAG service;
- the chat input and the call overlay.

These are classes with `modifies` clauses. Each method is proved against a function that specifies it. The prompter is also a class, but it only reads its template, so its fields are constants and `Build` changes nothing. Pure computations are functions with lemmas:

- sample clamping and PCM encoding;
- text extraction;
- batching;
- hit formatting;
- `str.format`;
- message reformatting;
- date grouping;
- `mm:ss` timer text;
- icon and size labels;
- the file-list updates.

Foreign code appears as function-valued parameters or constants, where `None` means "raised an exception". This covers:

- the speech model's loader and inference;
- the sentence tokenizer;
- the PDF/PPTX readers and the UTF-8 decoder;
- the text splitter;
- the embedding client;
- the Supabase table and RPC;
- the language model.

Clocks are also parameters: the formatted current time, local midnight in milliseconds, and `Date.now()`.

## Model

| member | source | states |
|---|---|---|
| Base.TrimParts | ai-service/app/services/rag_service.py:75 | `strip`/`trim` keeps exactly the slice between leading and trailing whitespace; the result is empty iff the text is blank, and otherwise neither starts nor ends with whitespace |
| Base.TrimEmpty | dashboard/src/components/ChatInput.jsx:17-18 | trimming gives the empty string exactly when the text is blank |
| Base.TrimIdempotent | dashboard/src/components/ChatInput.jsx:17 | trimming a trimmed text changes nothing |
| Base.ParseNatToString | dashboard/src/components/CallOverlay.jsx:75 | `String(n)` of a natural number reads back as `n` |
| Base.ParseNatLeadingZeros | dashboard/src/components/CallOverlay.jsx:75 | `padStart` with zeros keeps decimal text decimal and keeps its value |
| AuraTts.Clamp | voice-agent/aura_tts.py:101 | `clip(-32768, 32767)`: the result is in int16 range, in-range samples are unchanged, and samples out of range saturate to the nearer bound |
| AuraTts.ClampIdempotent | voice-agent/aura_tts.py:101 | clipping an already clipped sample changes nothing |
| AuraTts.ClampAll | voice-agent/aura_tts.py:101 | element-wise clip: same length, and every element is the clipped input element |
| AuraTts.Int16RoundTrip | voice-agent/aura_tts.py:101-102 | the two little-endian two's-complement bytes of an int16 decode back to it |
| AuraTts.PcmLength | voice-agent/aura_tts.py:102 | `tobytes` gives exactly two bytes per sample |
| AuraTts.PcmRoundTrip | voice-agent/aura_tts.py:101-102 | decoding the PCM bytes gives back the samples |
| AuraTts.AudioFor | voice-agent/aura_tts.py:92-102 | audio exists iff inference succeeded with at least one row (`audio_np[0]`); it is 2 bytes per sample of row 0 and decodes to row 0 clipped |
| AuraTts.AuraTts.constructor | voice-agent/aura_tts.py:61-70 | options stored, no model loaded, no generation yet |
| AuraTts.AuraTts.EnsureModel | voice-agent/aura_tts.py:72-87 | a loaded model is kept and not reloaded; otherwise the loader's result is stored; the model is stored at most once; a failing load leaves it unset |
| AuraTts.AuraTts.GenerateAudio | voice-agent/aura_tts.py:89-102 | one inference under the generation lock (never two at once, and released on every exit); the result is `AudioFor` of the inference and the model is unchanged |
| AuraTts.Emitter.Push | voice-agent/aura_tts.py:136 | only an initialised emitter is pushed to; the buffer is appended |
| AuraTts.ChunkedStream.Run | voice-agent/aura_tts.py:120-136 | a loaded model is kept and not reloaded, a missing one becomes the loader's result; without a model nothing is initialised or generated; otherwise the emitter gets the 24000 Hz mono PCM configuration, there is exactly one generation for the whole text (blank or not), and its buffer, if any, is pushed |
| AuraTts.TokenStream.PushText | voice-agent/aura_tts.py:169 | the call is recorded after all earlier ones |
| AuraTts.Dispatch | voice-agent/aura_tts.py:165-169 | one tokenizer call per input item |
| AuraTts.DispatchAt | voice-agent/aura_tts.py:165-169 | item i becomes `flush()` if it is the flush sentinel, else `push_text(item)`; no item becomes `end_input` |
| AuraTts.SynthesizeStream.ProcessInput | voice-agent/aura_tts.py:163-170 | the tokenizer receives the items' calls in order, then `end_input()` exactly once |
| AuraTts.NonBlank | voice-agent/aura_tts.py:176-177 | the kept sentences are all non-blank |
| AuraTts.NonBlankMembers | voice-agent/aura_tts.py:174-177 | a sentence is kept exactly when it occurs in the input and is not blank |
| AuraTts.NonBlankAppend | voice-agent/aura_tts.py:174-177 | filtering works sentence by sentence, so the kept sentences stay in tokenizer order |
| AuraTts.SynthesisPushesNonBlank | voice-agent/aura_tts.py:172-185 | for `SynthesisOf`, the loop's outcome: without a failure there is one pushed buffer per non-blank sentence, each that sentence's audio, in order; with a failure the buffers are those before the first sentence whose generation raised |
| AuraTts.SynthesisIgnoresBlank | voice-agent/aura_tts.py:176-177 | blank sentences have no effect on what is pushed |
| AuraTts.SynthesizeStream.Synthesize | voice-agent/aura_tts.py:172-185 | the loop pushes exactly `SynthesisOf`'s buffers, starts one generation per push plus the failing one, and keeps the model |
| AuraTts.SynthesizeStream.Run | voice-agent/aura_tts.py:147-188 | a loaded model is kept and not reloaded, a missing one becomes the loader's result; without a model nothing happens; otherwise the emitter gets the PCM configuration and the sentences the tokenizer yields for the dispatched input are synthesised |
| RagService.Suffix | ai-service/app/services/rag_service.py:45 | `Path.suffix`: a non-empty suffix ends the name, starts with its only dot, has at least one character after the dot and one before it |
| RagService.LowerSuffixIs | ai-service/app/services/rag_service.py:45-54 | the lower-cased suffix is `.ext` iff the name ends, in any letter case, with `.ext` after at least one character |
| RagService.ExtractedByName | ai-service/app/services/rag_service.py:43-64 | a name ending in `.pdf` / `.pptx` (any case, non-empty stem) is read by the PDF / PowerPoint reader, any other name as UTF-8 text; "" when that reader raises |
| RagService.LastIndexOf | ai-service/app/services/rag_service.py:45 | the last position of the character, or -1 when it does not occur |
| RagService.SuffixIs | ai-service/app/services/rag_service.py:45 | a name has suffix `.ext` iff it ends in `.ext` with at least one character before the dot |
| RagService.JoinedSnoc | ai-service/app/services/rag_service.py:49-52 | each page or shape appends its text and a newline, or nothing when empty |
| RagService.JoinedAppend | ai-service/app/services/rag_service.py:57-60 | the extracted text is built piece by piece in document order |
| RagService.JoinedEmpty | ai-service/app/services/rag_service.py:49-60 | nothing is extracted exactly when every page or shape text is empty |
| RagService.ExtractText | ai-service/app/services/rag_service.py:43-67 | the text chosen by lower-cased suffix: PDF pages, PPTX shapes, otherwise UTF-8 content; "" when the reader raises |
| RagService.ExtractPdf | ai-service/app/services/rag_service.py:46-53 | the loop's text is the non-empty pages, each followed by a newline |
| RagService.ExtractPptx | ai-service/app/services/rag_service.py:55-61 | the loop's text is the non-empty shape texts of all slides in order, each followed by a newline |
| RagService.Batch | ai-service/app/services/rag_service.py:86-87 | every batch holds between 1 and 100 chunks |
| RagService.BatchesPrefix | ai-service/app/services/rag_service.py:86-87 | the first k batches concatenated are the first min(100k, n) chunks |
| RagService.BatchesCover | ai-service/app/services/rag_service.py:86-87 | the batches concatenated are exactly the chunks: nothing lost, duplicated or reordered |
| RagService.ReportedTotal | ai-service/app/services/rag_service.py:102 | the logged total `(n-1)//100 + 1` is the number of batches |
| RagService.DocumentStore.Insert | ai-service/app/services/rag_service.py:101 | an accepted insert appends its rows; a rejected one adds none |
| RagService.RowsOf | ai-service/app/services/rag_service.py:92-99 | `zip(batch, vectors)`: as many rows as the shorter list, row j pairs chunk j with vector j and names the file |
| RagService.BatchLogsAt | ai-service/app/services/rag_service.py:86-104 | every batch is attempted and logged under its own 1-based number, as indexed when its embedding and insert succeed and failed otherwise, whatever happened to the earlier batches |
| RagService.AddedFromBatch | ai-service/app/services/rag_service.py:92-101 | every row a batch adds names the file and holds one of its chunks |
| RagService.IndexedRowsFromChunks | ai-service/app/services/rag_service.py:86-101 | every row indexing adds names the file and holds one of the chunks |
| RagService.RagService.AddDocument | ai-service/app/services/rag_service.py:69-106 | not configured without both clients; no text for a blank extraction; otherwise the outcome is the per-batch log and the store gains exactly the rows of the batches that succeed, in order |
| RagService.RagService.IndexText | ai-service/app/services/rag_service.py:74-106 | a blank text adds nothing; otherwise it is split and every batch is indexed |
| RagService.RagService.IndexChunks | ai-service/app/services/rag_service.py:85-104 | the loop's log and added rows are those of all batches in order |
| RagService.RagService.IndexBatch | ai-service/app/services/rag_service.py:88-104 | one batch: the rows are added and the batch is logged as indexed when embedding and insert succeed; otherwise nothing is added and the batch is logged as failed |
| RagService.RagService.RowsAddedFromFile | ai-service/app/services/rag_service.py:79-101 | every row `add_document` adds names the file as its source and holds a chunk of the file's text |
| RagService.RagService.OutcomeLog | ai-service/app/services/rag_service.py:86-104 | a finished run logs one line per batch, numbered 1, 2, … in order, each indexed line reporting the batch count as total |
| RagService.FormatHitParts | ai-service/app/services/rag_service.py:123 | the source and the content can be read back out of `[From <source>]:\n<content>` |
| RagService.SourceOf | ai-service/app/services/rag_service.py:122-123 | the shown source: "Unknown" without metadata or without a "source" key, "None" for a null source, the text otherwise; raises exactly for null metadata |
| RagService.ContentOf | ai-service/app/services/rag_service.py:123 | the shown content: "None" for null, the text otherwise; raises exactly when the key is missing |
| RagService.HitsAt | ai-service/app/services/rag_service.py:121-123 | `Hits`, the loop's list: it exists iff no row raises; then there is one hit per row, in row order, each formatted from that row's shown source and content |
| RagService.HitsNoneExtends | ai-service/app/services/rag_service.py:121-127 | once a row raises, the whole result is the error |
| RagService.RagService.Search | ai-service/app/services/rag_service.py:108-128 | [] without both clients, or when embedding, the RPC or any row raises (null metadata, missing content); otherwise the formatted hits of the matched rows, with a null source or content shown as "None" (none for null data) |
| RagService.RagService.SearchDefault | ai-service/app/services/rag_service.py:108 | `search(query)` with the default limit asks the table for at most 3 matches |
| Prompter.FormatNoBraces | ai-service/app/services/prompter.py:29 | `Format`, the model of `str.format`, copies brace-free text unchanged |
| Prompter.FormatPrefix | ai-service/app/services/prompter.py:29 | a brace-free prefix is copied and the rest is formatted on its own |
| Prompter.FormatRaises | ai-service/app/services/prompter.py:29 | after brace-free text, a `{` that neither doubles nor opens `{current_time}`, or a lone `}`, makes formatting raise |
| Prompter.FormatOneField | ai-service/app/services/prompter.py:19-29 | a template with a single `{current_time}` field formats to the text with the time in its place and nothing else changed |
| Prompter.Prompter.Build | ai-service/app/services/prompter.py:22-42 | Some iff the template formats; length 2 + history; the system message (`SystemMessage`: role "system", the formatted template) first, then the context's history unchanged (only when the context has one), then the user message last |
| GenerateNode.ReformatOne | ai-service/app/services/brain/nodes/generate.py:14-20 | `Reformat`, the loop's list: a human message becomes "user", an AI message "assistant", a dict passes through, anything else is dropped |
| GenerateNode.ReformatLength | ai-service/app/services/brain/nodes/generate.py:13-20 | the reformatted list is never longer, and has equal length when nothing is dropped |
| GenerateNode.ReformatAppend | ai-service/app/services/brain/nodes/generate.py:13-20 | reformatting works message by message, so order is kept |
| GenerateNode.ReformatAllKept | ai-service/app/services/brain/nodes/generate.py:13-20 | with nothing dropped, position i is the chat form of message i |
| GenerateNode.Sent | ai-service/app/services/brain/nodes/generate.py:23-24 | the system message is inserted at index 0 before the reformatted messages |
| GenerateNode.GenerateResponse | ai-service/app/services/brain/nodes/generate.py:7-30 | fails iff the system prompt does not format; otherwise one AI message with the reply text to the system message plus the reformatted history, and the reply's emotion |
| ChatInput.ChatInput.SendDisabled | dashboard/src/components/ChatInput.jsx:46 | the send button is disabled iff the text is blank or the input is disabled |
| ChatInput.ChatInput.HandleSubmit | dashboard/src/components/ChatInput.jsx:16-21 | when disabled or blank, nothing changes; otherwise `onSend` receives the trimmed text and the box is cleared; every sent message is non-empty and trimmed |
| ChatInput.ChatInput.HandleKeyDown | dashboard/src/components/ChatInput.jsx:23-28 | the default is prevented iff Enter is pressed without Shift, and exactly then the message is submitted |
| ChatInput.ChatInput.SetDisabled | dashboard/src/components/ChatInput.jsx:3 | the parent's `disabled` prop changes; the text and what was sent stay |
| ChatInput.ChatInput.Type | dashboard/src/components/ChatInput.jsx:36 | the box holds what was typed; nothing is sent |
| Sidebar.LabelOf | dashboard/src/components/Sidebar.jsx:95-99 | Today iff the date (`StampOf`: `updated_at` or, when that is falsy, `created_at`; `Millis`: null is the epoch, a missing or unparsable stamp is invalid) is valid and at or after midnight; Yesterday iff in the preceding 24 hours; Older iff invalid or earlier |
| Sidebar.Find | dashboard/src/components/Sidebar.jsx:101 | the position of the first group with the key, or the number of groups when none has it |
| Sidebar.GroupByDate | dashboard/src/components/Sidebar.jsx:88-105 | the loop builds `GroupsOf` the whole input: one `Push` per conversation, in input order |
| Sidebar.PushGrouped | dashboard/src/components/Sidebar.jsx:101-102 | one `Push` (create the key on first use, then append) keeps the groups exact for the input extended by that conversation |
| Sidebar.GroupByDateGroups | dashboard/src/components/Sidebar.jsx:94-103 | each label occurs at most once; a label is a key iff some conversation has it; each group holds exactly that label's conversations in input order, and none is empty |
| Sidebar.GroupByDateTotal | dashboard/src/components/Sidebar.jsx:94-103 | the group sizes add up to the number of conversations |
| CallOverlay.FormatTime | dashboard/src/components/CallOverlay.jsx:75 | zero-padded minutes, a colon, then zero-padded two-digit seconds |
| CallOverlay.FormatTimeRoundTrip | dashboard/src/components/CallOverlay.jsx:75 | reading the text back gives minutes × 60 + seconds = s, with seconds below 60 |
| CallOverlay.StepConsistent | dashboard/src/components/CallOverlay.jsx:10-73 | `Step` gives the effect of one event (token fetched, room joined, tick, hang-up, unmount); every event keeps the overlay consistent: only a connected, uncancelled call runs the timer; time passes only when connected; after unmount no timer or room remains |
| CallOverlay.RunConsistent | dashboard/src/components/CallOverlay.jsx:10-73 | any sequence of events (`Run`) keeps the overlay consistent |
| CallOverlay.StepStatus | dashboard/src/components/CallOverlay.jsx:44-50 | the status changes at most once, from connecting to connected or error, and never after cancellation |
| CallOverlay.RunStatusFrozen | dashboard/src/components/CallOverlay.jsx:23-56 | once decided or cancelled, no sequence of events changes the status |
| CallOverlay.CallOverlay.constructor | dashboard/src/components/CallOverlay.jsx:4-11 | connecting, zero seconds, not cancelled, awaiting the token |
| CallOverlay.CallOverlay.Cleanup | dashboard/src/components/CallOverlay.jsx:61-68 | the timer is stopped and the room released; nothing else changes |
| CallOverlay.CallOverlay.TokenFetched | dashboard/src/components/CallOverlay.jsx:16-27 | follows `Step`: a failure sets error unless cancelled; success creates the room unless cancelled |
| CallOverlay.CallOverlay.RoomJoined | dashboard/src/components/CallOverlay.jsx:41-50 | follows `Step`: connected with the timer started on success, error on failure, nothing if cancelled |
| CallOverlay.CallOverlay.Tick | dashboard/src/components/CallOverlay.jsx:46 | follows `Step`: the running timer adds one second |
| CallOverlay.CallOverlay.HangUp | dashboard/src/components/CallOverlay.jsx:61-73 | follows `Step`: the timer is stopped and the room released |
| CallOverlay.CallOverlay.Unmount | dashboard/src/components/CallOverlay.jsx:55-58 | follows `Step`: cancelled, then cleaned up |
| KnowledgeBase.MimeIcon | dashboard/src/components/KnowledgeBase.jsx:73-78 | the first matching rule wins: pdf; then zip or compressed; then csv or spreadsheet; otherwise the generic icon (also for a missing type) |
| KnowledgeBase.PdfWins | dashboard/src/components/KnowledgeBase.jsx:74 | a type mentioning "pdf" gets the document icon whatever else it mentions |
| KnowledgeBase.FormatSize | dashboard/src/components/KnowledgeBase.jsx:80-85 | "0 B" iff the size is missing or 0; KB iff 1024 ≤ size < 1048576; MB iff ≥ 1048576 |
| KnowledgeBase.SmallSizeText | dashboard/src/components/KnowledgeBase.jsx:82 | 1 to 1023 bytes are written as their decimal digits and " B", which read back as the size |
| KnowledgeBase.RemoveById | dashboard/src/components/KnowledgeBase.jsx:70 | the filtered list is never longer |
| KnowledgeBase.RemoveByIdMembers | dashboard/src/components/KnowledgeBase.jsx:70 | deleting keeps exactly the rows whose id differs |
| KnowledgeBase.RemoveByIdAppend | dashboard/src/components/KnowledgeBase.jsx:70 | the filter works row by row, so kept rows keep their order |
| KnowledgeBase.RemoveByIdAbsent | dashboard/src/components/KnowledgeBase.jsx:70 | a list without the id is unchanged |
| KnowledgeBase.AfterUpload | dashboard/src/components/KnowledgeBase.jsx:47 | a returned row goes first and the old list follows unchanged; without a row the list is unchanged |
| KnowledgeBase.UploadThenDelete | dashboard/src/components/KnowledgeBase.jsx:47-70 | deleting a freshly uploaded row with a new id restores the list from before the upload |
| KnowledgeBase.MimeOf | dashboard/src/components/KnowledgeBase.jsx:41 | the stored type is never empty, and is the file's own type when that is non-empty |
| KnowledgeBase.NewRecord | dashboard/src/components/KnowledgeBase.jsx:25-43 | the inserted metadata has the file's name and size, the type `MimeOf` the file's type, and the storage path `knowledge/`, the decimal digits of the upload time, `_`, then the name |

## Left out

- Floating point: the model's inference returns sample rows already multiplied by 32767 and truncated to integers. The float32 arithmetic of line 101 of `voice-agent/aura_tts.py` is not modelled. For integer bounds, clipping then truncating equals truncating then clipping.
- Byte order: `tobytes()` is modelled as little-endian, the native order of the machines the agent runs on.
- Concurrency:
  - The two locks are a sequential flag and counters: `generating`, and `loads` (at most one model store).
  - `asyncio.gather` of the input reader and the synthesiser is modelled as the reader running to completion before the synthesiser reads the tokenizer's sentences.
  - `run_in_executor` threads are not modelled.
- AuraTts.SynthesizeStream.Run: the sentence tokenizer is an opaque segmentation of the whole call history. Its sentence-boundary rules are foreign code.
- The random `request_id` of `output_emitter.initialize`, and all logging.
- An exception from `_ensure_model` or from a generation ends the stream. The model returns `ok = false` rather than an exception object.
- Whitespace is ASCII only (space and characters 9-13). Python's `strip` also removes characters 28-31 and non-ASCII whitespace; JavaScript's `trim` removes non-ASCII whitespace.
- Lower-casing of the file suffix is ASCII only.
- `Path.suffix` follows Python up to 3.13: a name that ends in a dot has no suffix.
- The PDF and PPTX readers, the UTF-8 decoder, the text splitter (chunk size 1000, overlap 200), the embedding client and the Supabase client are foreign. A file carries what each reader returns, and a client is a function whose `None` means "raised".
- RagService.RagService.Search: a "source" or "content" value that is JSON but neither null nor a string (a number, a list, an object) is not modelled; the f-string would print Python's text for it. Metadata that is present but not an object is not modelled either.
- The RAG service's constructor reads settings and creates clients. That is configuration: the model's constructor takes the resulting client and embedder, or their absence.
- `UPLOAD_DIR` creation and the module-level `rag_service` instance.
- Prompter.Format: `str.format` is modelled for templates whose only named field is `current_time`. A conversion, a format spec, an attribute or index lookup, or any other field counts as raising.
- The persona text of the system prompt is a constructor parameter. `FormatOneField` proves what formatting does to any template of that shape.
- The formatted time `datetime.now().strftime(...)` is a parameter of `Build`.
- GenerateNode.GenerateResponse: `llm_service` is imported from `ai-service/app/services/llm.py`, which does not define it. The language model is therefore an opaque function parameter. Messages in the graph state are one of: a human message, an AI message, a dictionary, or something else.
- Sidebar: `new Date(...)` parsing of date strings is a given `parsed` value per stamp. Local midnight is a parameter. The groups object is an association list in key-creation order, the order JavaScript gives non-integer string keys.
- CallOverlay:
  - The dynamic import of `livekit-client`, the token fetch, room events, attaching and detaching audio elements, and the DOM are not modelled.
  - Their outcomes are the events `TokenFetched` and `RoomJoined`.
  - The one-second interval is the `Tick` event.
  - `onClose` belongs to the parent component.
  - The rendering is not modelled.
- KnowledgeBase.FormatSize: for sizes shown in KB or MB the label carries the unit and the byte count, not the one-decimal `toFixed(1)` text. A `NaN` size and JavaScript's exponent notation for huge numbers are not modelled.
- KnowledgeBase: `loadFiles`, the storage upload, the RAG backend POST, the `uploading` flag, the file-input reset and the `if (!file) return` guard are I/O or view state. `handleUpload` is modelled by `NewRecord` and `AfterUpload`, `handleDelete` by `RemoveById`.
- ChatInput: the textarea auto-resize effect and the rendering are view-only.
- Integers are unbounded. The source's numbers (Python ints, JavaScript doubles below 2^53 for counts and sizes) do not overflow at the sizes involved.
- The rest of the repository is not part of this model:
  - the token server and the agent entry point of the voice agent;
  - the API routes, memory service, emotion node, graph and configuration of the AI service;
  - the other dashboard components and pages.
