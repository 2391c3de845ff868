# Document question-answering: client session and backend chunking, in Dafny

This project models the two pieces of sequential logic in a small PDF
question-answering application.

The first piece is the client session of `App.js`: the React `App`
component without its markup. The model keeps its state: the chat history,
the draft message, the loading, document-loaded and listening flags, the
document summary, the id of the entry being spoken and the selected file.
Every handler becomes a method of the class `Session.ChatSession`. A handler
that awaits the backend is split at its `await` into a `Begin…` method and
one `Complete…` method per outcome. Any other event can then be run between
the two, and module `Scenarios` proves what some of those interleavings do.
`Date.now()` is passed in as a number. The network appears as a success
value or a `Gateway.Failure`. The speech engines appear as the commands a
handler gives them (`RecognizerCommand`, `SynthesisCommand`) and as the event
methods they call back (`OnRecognition…`, `OnUtterance…`).

The second piece is the Flask backend of `app.py`. It covers the
token-window chunker `chunk_text_by_tokens` (module `Chunking`, a `while`
loop proved against a closed-form list of windows), the guard chains of
the three routes, the joins that build the prompt context, and the
overwrite of the module-level document state by `upload_pdf` (class
`Backend.Server`). The tokenizer, the PDF extractor, the embedding model,
the nearest-neighbour search and the language model are parameters.

Behaviour of the code that the model keeps, and that a reader might not
expect:

- Entries have the senders `user`, `ai` and `system`. The text of a failed
  answer goes into an `ai` entry without an id.
- Entry ids are `Date.now()` values. Two entries can share an id
  (`Scenarios.AnswerIdRepeats`).
- `handleSendMessage` does not check the loading flag itself. Only the Enter
  key and the disabled buttons do, and the "ask about highlighted text"
  button is not disabled while a call is pending.
- The mic button toggles: pressed while listening, it stops recognition.
- Stopping playback, or switching it to another entry, cancels the utterance
  being spoken. The `interrupted` error event this makes the engine fire
  reaches the utterance's error handler, which appends a `Voice output
  error: interrupted.` entry each time (`Scenarios.SpeakToggleInterrupted`).
- The export labels every entry that is not the user's as `AI`, system
  entries included.
- A summary request still in flight when a new PDF is picked fills in the
  earlier document's summary. That summary stays once the new document
  loads and blocks a new request (`Scenarios.SummaryAfterNewUpload`).
- The summary route never replies 500: the language-model wrapper catches
  every error and returns a text.
- When `max_tokens - overlap <= 0`, the chunker loops forever on every
  non-empty token sequence (`Chunking.IterationsDiverge`).

## Model

| member | source | states |
|---|---|---|
| `Strings.Trim` | App.js:149-151 | `trim()`: the result is empty exactly when every character is JavaScript whitespace; otherwise it neither starts nor ends with whitespace |
| `Strings.TrimInfix` | App.js:149-151 | the trimmed text is the slice `s[i..j]` of the input, with only whitespace before `i` and after `j` |
| `Strings.TrimIdempotent` | App.js:151 | trimming the trimmed message changes nothing |
| `Strings.EndsWith` | app.py:172 | `filename.endswith('.pdf')`: the suffix fits in the string and its last characters equal it |
| `Strings.NatToDecimal` | App.js:133 | `${response.status}`: a non-empty digit string with no leading zero unless the status is 0 |
| `Strings.DecimalRoundTrip` | App.js:133 | reading the rendered status back gives the status |
| `Strings.Join` | app.py:244 | `sep.join(parts)` (also `parts.join(sep)` at App.js:296 and the space join at app.py:274): the parts in order, with `sep` between neighbours. Its properties are JoinLength, JoinEmptyIff and SplitJoin |
| `Strings.SplitJoin` | App.js:296 | for at least one part, splitting a join at a separator character that no part contains gives back the parts |
| `Strings.JoinLength` | app.py:244 | `"\n\n".join(...)`: the length is the parts' total plus one separator between each pair |
| `Strings.JoinEmptyIff` | app.py:274-277 | with a non-empty separator, a join is empty exactly when there is no part or one empty part |
| `Transcript.Label` | App.js:296 | `msg.sender === 'user' ? 'You' : 'AI'`: `You` for the user, `AI` for the `ai` and `system` senders alike |
| `Transcript.CopyLine` | App.js:296 | one export line: the label, `: ` and the message |
| `Transcript.CopyLines` | App.js:296 | one export line per entry, in order, each the entry's label (`You` for the user, `AI` otherwise) and message |
| `Transcript.CopyText` | App.js:296 | the export joins the lines with newlines; it is empty exactly when the history is |
| `Transcript.CopyTextLines` | App.js:296 | for a non-empty history in which no message contains a newline, splitting the export at newlines gives back exactly one line per entry |
| `Transcript.CopyTextAppend` | App.js:296 | for a non-empty history, the export of a history with one more entry is the old export, a newline and that entry's line |
| `Transcript.InitialHistory` | App.js:84-92 | no saved value, an empty one or one that fails to parse loads as `[]`; otherwise the parsed history |
| `Gateway.ErrorMessage` | App.js:131-133 | a thrown error gives its message; an HTTP error gives the server's non-empty `error` field, otherwise `HTTP error! status: N` |
| `Gateway.StatusRecoverable` | App.js:133 | when the server gave no message, the fallback text has the fixed prefix and its digits decode to the status |
| `Session.SendAccepted` | App.js:149 | the send guard: the trimmed text is non-empty and a document is loaded |
| `Session.ChatSession.SummaryWanted` | App.js:212 | the summary effect's guard: a document is loaded and the summary is `''` |
| `Session.ChatSession.constructor` | App.js:83-99 | first render: the history from InitialHistory, an empty draft and summary, every flag off, no speaking id, no file |
| `Session.ChatSession.BeginSend` | App.js:148-154 | a send goes ahead iff the trimmed text is non-empty and a document is loaded; then exactly one `user` entry with id `now` and the trimmed text is appended, the draft becomes `''` and loading is on; otherwise history, draft and loading are unchanged |
| `Session.ChatSession.PressEnter` | App.js:272-276 | Enter sends the draft through BeginSend only when no call is loading; otherwise nothing changes |
| `Session.ChatSession.CompleteSendSuccess` | App.js:141-158 | loading is off, and an `ai` entry with id `userId + 1` and the answer is appended after the unchanged prior entries |
| `Session.ChatSession.CompleteSendFailure` | App.js:141-160 | loading is off, and an id-less `ai` entry `Error getting response: ` + ErrorMessage is appended after the unchanged prior entries |
| `Session.ChatSession.BeginSummary` | App.js:210-213 | a summary request starts iff a document is loaded and the summary is `''`; then the summary becomes the non-empty placeholder, so a second request is blocked |
| `Session.ChatSession.CompleteSummarySuccess` | App.js:141-216 | the summary becomes the result and loading is off; the effect wants another request only if the result is empty |
| `Session.ChatSession.CompleteSummaryFailure` | App.js:141-218 | the summary becomes `Failed to generate summary: ` + ErrorMessage, never empty, so no new request follows |
| `Session.ChatSession.BeginUpload` | App.js:226-235 | no file: nothing changes. A non-PDF type: the history is one system entry, the document is unloaded, the summary is `''` and no file is selected. A PDF: the file is selected, the document is unloaded, the summary is `''`, the history is one "Uploading…" entry and loading is on |
| `Session.ChatSession.CompleteUploadSuccess` | App.js:251-261 | the document is loaded, loading is off, and one system entry names the returned filename |
| `Session.ChatSession.CompleteUploadFailure` | App.js:255-261 | a failure entry is appended, the file is dropped, the document stays unloaded and loading is off |
| `Session.ChatSession.ClearChat` | App.js:289-292 | the history becomes empty; no other field changes |
| `Session.ChatSession.CopyChat` | App.js:295-309 | the clipboard gets CopyText of the history unless copying throws; one confirmation or failure entry is appended |
| `Session.ChatSession.VoiceInput` | App.js:312-322 | with a recognizer: stop while listening, start otherwise, with the history unchanged; without one: one system entry is appended |
| `Session.ChatSession.OnRecognitionStart` | App.js:173-176 | listening is on and the draft is `Listening...` |
| `Session.ChatSession.OnRecognitionResult` | App.js:178-183 | listening is off and the transcript takes exactly the BeginSend path; a rejected transcript stays in the draft |
| `Session.ChatSession.OnRecognitionError` | App.js:185-190 | listening is off, the draft is `''` and exactly one system entry names the error |
| `Session.ChatSession.OnRecognitionEnd` | App.js:192-197 | listening is off; the draft is cleared only if it still equals `Listening...` |
| `Session.ChatSession.SpeakResponse` | App.js:325-354 | unsupported: one system entry. Engine speaking this entry's id: cancel and clear the slot. Speaking another id: cancel, then speak the new one. Not speaking: speak. History unchanged when supported |
| `Session.ChatSession.OnUtteranceStart` | App.js:330-332 | the slot holds the started utterance's entry id |
| `Session.ChatSession.OnUtteranceEnd` | App.js:333-335 | the slot is freed |
| `Session.ChatSession.OnUtteranceError` | App.js:336-340 | the slot is freed and exactly one system entry names the error |
| `Scenarios.QuestionAndAnswer` | App.js:148-161 | after an upload and one answered question, the history is the two upload entries, the question (id `now`) and the answer (id `now + 1`), in that order; the draft is empty and loading is off |
| `Scenarios.QuestionFails` | App.js:156-161 | a failed question stays in the history, followed by one error entry carrying the reason |
| `Scenarios.AnswerAfterNewUpload` | App.js:156-235 | an answer that arrives after a new PDF was picked is appended to the fresh history without its question, and it turns loading off while the upload is still pending |
| `Scenarios.SummaryAfterNewUpload` | App.js:210-254 | a summary that arrives after a new PDF was picked stays in place once the new document loads, and no new summary is requested |
| `Scenarios.AnswerIdRepeats` | App.js:152-158 | two questions sent 1 ms apart give the second question and the first answer the same id |
| `Scenarios.RejectedTranscriptStays` | App.js:178-197 | the send guard on a voice transcript, in the model: a transcript delivered while no document is loaded is not sent and stays in the draft after the recognizer ends. The interface does not reach this state: the mic button is disabled without a document (App.js:506) |
| `Scenarios.SpeakToggle` | App.js:325-350 | speak entry 1, press again to cancel, restart, then press entry 2 to cancel and speak it; the slot ends holding entry 2. The engine's `interrupted` error events on cancel are left out of this run |
| `Scenarios.SpeakToggleInterrupted` | App.js:325-350 | the same run with the `interrupted` error event after each cancel: the transcript gains one `Voice output error: interrupted.` entry per cancel, and entry 2 still ends holding the slot when its `start` follows the error |
| `Chunking.PySlice` | app.py:105 | Python slicing `tokens[i:j]`: the plain slice for `i < j <= len`, empty for a non-negative `j <= i`; a negative `j` counts from the end |
| `Chunking.Window` | app.py:104-105 | the chunk cut at `start`: `tokens[start : min(start + max_tokens, len)]` |
| `Chunking.Windows` | app.py:103-114 | the closed form ChunkTextByTokens is proved equal to: window `k` starts at `k*step`, for every such start below the length |
| `Chunking.ChunkedText` | app.py:95-116 | no chunk for an empty text; otherwise the decoded Windows of its tokens, in order |
| `Chunking.Iterations` | app.py:103-114 | the loop control alone, run with at most `fuel` iterations: how many times the body runs before the loop is left, or none if it is still running |
| `Chunking.ChunkCount` | app.py:103-114 | the number of window starts `0, step, 2*step, …` below `n`: has `count*step >= n` and `(count-1)*step < n` |
| `Chunking.ChunkIndexInRange` | app.py:103-114 | `k` indexes a chunk exactly when `k*step < n` |
| `Chunking.ChunkTextByTokens` | app.py:90-116 | the loop returns exactly the decoded windows `tokens[k*step : min(k*step+max_tokens, n)]` for each `k` with `k*step < n`, in order; an empty text gives no chunk |
| `Chunking.WindowAt` | app.py:103-105 | with `0 <= overlap < max_tokens`, chunk `k` starts below `n` and is the slice from `k*step` to `min(k*step + max_tokens, n)` |
| `Chunking.ChunkSizes` | app.py:104-105 | every chunk is non-empty and has at most `max_tokens` tokens |
| `Chunking.LastChunkReachesEnd` | app.py:104-113 | for non-empty tokens, the last chunk runs to the end of the tokens |
| `Chunking.Coverage` | app.py:103-114 | every token index lies in some chunk, at its offset from that chunk's start |
| `Chunking.FullChunksOverlap` | app.py:104-111 | a full-length chunk with a successor shares exactly `overlap` tokens with it |
| `Chunking.TrailingChunkContained` | app.py:104-114 | when chunk `k` already reaches the end and chunk `k+1` exists, chunk `k+1` is the tail of chunk `k` |
| `Chunking.IterationsTerminate` | app.py:103-114 | with `step > 0` the loop leaves after exactly ChunkCount iterations |
| `Chunking.IterationsDiverge` | app.py:111-114 | with `step <= 0` and at least one token, the loop never leaves, whatever the number of iterations allowed |
| `Chunking.ConfiguredChunking` | app.py:35-36 | with 500/50, a 1000-token text gives three chunks: tokens 0–500, 450–950 and 900–1000 |
| `Backend.UploadGuard` | app.py:162-172 | in order: no embedding model gives 500; no `file` part, 400; empty filename, 400; a name not ending in `.pdf`, 400 (line 212). Processing goes on exactly when all checks pass |
| `Backend.AskGuard` | app.py:221-231 | in order: no index or no chunks gives 400; no model, 500; a missing or empty query, 400. The search goes on exactly when all checks pass |
| `Backend.Select` | app.py:243 | the context has one chunk per search hit, in hit order |
| `Backend.AskPrompt` | app.py:247-254 | the question prompt: the fixed instructions, the context and the query, each quoted |
| `Backend.SummaryPrompt` | app.py:279-282 | the summary prompt: the fixed instructions and the document, quoted |
| `Backend.Server.constructor` | app.py:38-62 | the server starts with no chunks, no index, no metadata, and the model loaded or not |
| `Backend.Server.UploadPdf` | app.py:155-212 | every error reply leaves the state unchanged: guard errors, no extracted text (400), no chunks (400), an embedding failure (500). Success replies 200 with the filename and stores the chunks, an index of `len(chunks)` vectors and `num_chunks == len(chunks)` |
| `Backend.Server.AskQuestion` | app.py:216-263 | guard errors first; an embedding failure gives 500; otherwise the route asks the search for `k = min(5, len(chunks))` hits and replies 200 with the `k` hit chunks in hit order as context, and the answer the model gives for the prompt built on their `"\n\n"` join |
| `Backend.Server.GetSummary` | app.py:267-289 | no document gives 400; otherwise the chunks are joined by spaces. That join is empty, giving 400, exactly when the document is one empty chunk; else 200 with the model's summary |
| `Backend.ClientShowsServerMessage` | App.js:131-133 | for every error reply of the routes, the client shows exactly the server's message, never the status fallback |

## Left out

- Rendering: JSX, the icon components, styling, the scroll effect and the mock contract text (App.js:4-78, 114-119, 356-522), apart from the gates in the next line.
- The enable/disable gates of the interface are not modelled. These are: the text input disabled while loading, without a document or while listening (App.js:500); the mic disabled only while loading or without a document, so it stays enabled while listening and its stop branch is reachable (App.js:506); the send button disabled while loading, without a document, while listening or while the draft is blank (App.js:513); the speaker button shown only on `ai` entries (App.js:451); the highlighted-text button shown only while some text is highlighted, which clears the highlight after sending (App.js:415-419). So the `ChatSession` methods, `PressEnter` and `VoiceInput` among them, can be called in states the interface disables. For example, `PressEnter` while listening sends the `Listening...` draft. Each `Scenarios` method names, in its doc comment, the controls that reach its run.
- Persisting the history to `localStorage` on every change (App.js:106-112) and its removal in `handleClearChat` (App.js:291). This is browser I/O. Only reading back is modelled, with `JSON.parse` as a parameter.
- Transcript.InitialHistory: assumes the parsed value is a list of entries. Saved JSON that parses to something else (such as `null`) is not modelled.
- The clipboard `execCommand` (App.js:298-303). It becomes the `copyThrows` input.
- `window.getSelection` and the highlighted text (App.js:279-286). This is DOM access. The highlighted-text button goes through the same BeginSend.
- Creating, configuring and stopping the speech recognizer (App.js:165-171, 199-206). Also the synthesis engine and `utterance.lang`. The engines are external; their callbacks are event methods.
- React's asynchrony: batching, continuation order and stale closures. Handlers read the current fields, and each await is a Begin/Complete pair.
- Session.ChatSession.OnRecognitionResult: runs over the session's current fields. In App.js the recognition effect (App.js:165-207) runs again each time `currentMessage` or `handleSendMessage` changes, and its cleanup stops the running recognizer. Such a recognizer's late `onresult` calls the `handleSendMessage` of the render that created it. So a transcript that arrives after a new upload has unloaded the document (App.js:232) is still sent there, where the model rejects it.
- Session.ChatSession.OnRecognitionEnd: compares the current draft with `Listening...`. In App.js a stopped recognizer's `onend` compares the draft of the render that created it (App.js:194), so the `Listening...` that `onstart` put in (App.js:175) can stay in the draft.
- Session.ChatSession.CompleteSendSuccess: a reply without an `answer` field (`undefined`) is not modelled; answers are strings.
- The tokenizer (`get_tokenizer`, app.py:66-72), PDF text extraction (app.py:74-88), embeddings (app.py:119-132), FAISS search and the Gemini call (app.py:135-149). These are foreign libraries and floating-point numerics. They are parameters: extracted text, `encode`/`decode`, an optional embedding error, a `search` function from `k` to hit indices, and `generate`, which returns a text even on failure.
- Backend.Server.UploadPdf: a failure while adding vectors to the index (app.py:193-194) is not modelled. It is floating-point library code, so the model never pairs a new index with old chunks.
- Backend.Server.AskQuestion: a request body that is not JSON (`request.json` is `None`) and a `query` that is not a string fall outside the `try` and are not modelled.
- Flask, CORS, waitress, temporary-file handling, `load_dotenv` and start-up logging (app.py:1-62, 173-179, 208-210, 291-295). This is framework plumbing.
- Chunking.ChunkTextByTokens: requires `max_tokens > overlap`, because otherwise the loop does not terminate. That behaviour is captured by Chunking.IterationsDiverge instead of by the method.
