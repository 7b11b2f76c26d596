# Chat client and retrieval backend: a Dafny model

This project models a document question-answering chat application, in three parts.

- **The chat page.** `frontend/app/page.tsx` keeps a transcript of user and assistant messages, plus the `processing`, `uploading` and `isDragActive` flags and an `uploadStatus` line. Its handlers do the following:
  - send a question with the last six messages as history;
  - upload PDFs;
  - analyse images one by one, from the picker or from a drag and drop.
- **The audio recorder widget.** `frontend/components/AudioRecorder.tsx` shows an `MM:SS` clock while recording. It buffers the audio chunks, and on stop it hands exactly one transcription string back to the page.
- **The backend.** `backend/app/main.py` exposes `/upload` and `/chat`. `backend/app/rag.py` builds a vector store from the chunks of the uploaded PDFs. It answers a question only once a store exists, turning the `[role, content]` history into LangChain human and AI messages.

Each handler is modelled as running to completion before the next event. Whatever the network, the browser, the microphone, the PDF loader or the language model would answer is a parameter:

- `ChatOutcome`, `ImageOutcome`, `UploadOutcome` and `TranscribeOutcome` for the page and the recorder;
- a `load` function and an `Attempt` for the backend's PDF splitting and store building;
- a `chain` function for the retrieval chain.

A Python exception is the `Py.Raise(message)` case, where `message` is `str(e)`.

Modules:

| file | module | what it holds |
|---|---|---|
| `strings.dfy` | `Strings` | JavaScript `trim` and `padStart`, decimal rendering of integers and its parser |
| `chat_model.dfy` | `ChatModel` | messages, the history window, the request body, the drop filter, and what the image loop appends |
| `chat_page.dfy` | `ChatPage` | class `ChatSession`: the page's state and handlers |
| `recording.dfy` | `Recording` | `FormatTime` and class `Recorder`: the recording life cycle |
| `rag.dfy` | `Rag` | history conversion, PDF splitting, and class `RAGService` |
| `api.dfy` | `Api` | the `/chat` and `/upload` endpoints, and the exception-to-500 mapping |
| `history_pipeline.dfy` | `HistoryPipeline` | the history from page to language model, end to end |

The classes carry invariants:

- `ChatSession.Valid()`: the transcript always starts with the greeting.
- `Recorder.Valid()`:
  - the chunk buffer is exactly the non-empty chunks delivered since recording started;
  - the timer runs exactly while recording.

## Model

| member | source | states |
|---|---|---|
| `Strings.TrimStartShape` | frontend/app/page.tsx:251 | Stripping leading white space keeps a suffix of the input that is empty or starts with a non-space; everything removed is white space. |
| `Strings.TrimEndShape` | frontend/app/page.tsx:251 | Stripping trailing white space keeps a prefix of the input that is empty or ends with a non-space; everything removed is white space. |
| `Strings.Trim` | frontend/app/page.tsx:251 | `trim()` never lengthens its input, and returns an empty string, or one that starts and ends with a non-space, unchanged. |
| `Strings.TrimEmptyIffBlank` | frontend/app/page.tsx:251 | `input.trim()` is empty (falsy) exactly when every character of the input is ECMAScript white space, in both directions. |
| `Strings.TrimKeepsNonBlank` | frontend/app/page.tsx:487 | An input with a non-space character trims to a non-empty string that starts and ends with a non-space, so the blank-input half of the send button's disabled test is false. |
| `Strings.NatToString` | frontend/components/AudioRecorder.tsx:157 | `toString()` of a number is never the empty string; its digits, absence of a leading zero and round trip are stated by the lemmas below. |
| `Strings.NatToStringDigits` | frontend/components/AudioRecorder.tsx:157 | `toString()` of a non-negative integer is at least one decimal digit, with no leading zero. |
| `Strings.ParseNatToString` | frontend/components/AudioRecorder.tsx:157 | The decimal rendering reads back as the same number (round trip). |
| `Strings.NatToStringLength` | frontend/components/AudioRecorder.tsx:157 | The rendering has one digit exactly when the number is below 10, and at most two exactly when it is below 100. |
| `Strings.ParseNatLeadingZeros` | frontend/components/AudioRecorder.tsx:157 | Zero padding in front of a digit string does not change the value it reads as. |
| `Strings.PadStart` | frontend/components/AudioRecorder.tsx:157 | `padStart(2, '0')` yields length max(len, 2), ends with the original string and is preceded only by '0'; it never truncates. |
| `ChatModel.RoleName` | frontend/app/page.tsx:8-11 | A message's role is sent as "user" or "assistant" and nothing else. |
| `ChatModel.WireEntry` | frontend/app/page.tsx:259 | Each history entry is the two-element list `[role, content]` of its message. |
| `ChatModel.HistoryWindow` | frontend/app/page.tsx:258-259 | The history holds min(6, n) entries: the last messages of the transcript, in order, each as `[role, content]`. |
| `ChatModel.HistoryWindowSlides` | frontend/app/page.tsx:259 | Once the transcript has six messages or more, one more message drops the oldest history entry and adds the new message at the end. |
| `ChatModel.BuildRequest` | frontend/app/page.tsx:262-272 | The endpoint is `/chat_with_internet` exactly when internet search is on and `/chat` exactly when it is off; `force_internet_search` is in the body exactly when internet search is on and then carries the page's flag; question and history are passed unchanged. |
| `ChatModel.ReplyText` | frontend/app/page.tsx:280-284 | The assistant reply is the response's `answer`, or the fixed "Error al conectar con el servidor." when the request throws. |
| `ChatModel.HasImageFile` | frontend/app/page.tsx:75-78 | Some dragged item is a file whose type starts with "image/"; this can only hold of a non-empty list, so the `items.length > 0` test before it decides nothing. |
| `ChatModel.ImagesOnly` | frontend/app/page.tsx:103-105 | The drop filter never returns more files than were dropped; what it keeps is stated by the three lemmas below. |
| `ChatModel.ImagesOnlyKeepsImages` | frontend/app/page.tsx:101-105 | The drop filter returns only image files taken from the drop, and every image file of the drop is among them. |
| `ChatModel.ImagesOnlyAppend` | frontend/app/page.tsx:103-105 | The filter distributes over concatenation, so kept files stay in drop order. |
| `ChatModel.ImagesOnlyExtremes` | frontend/app/page.tsx:103-107 | A drop of images only keeps every file; a drop with no image keeps none, so the handler does nothing more. |
| `ChatModel.PairFor` | frontend/app/page.tsx:196-222 | A successful analysis contributes the user image message then the assistant analysis; a refused or failed one contributes nothing. |
| `ChatModel.StepStatus` | frontend/app/page.tsx:214-222 | After image i (from zero) the status is "✅ Imagen i+1/n analizada correctamente." on success, "❌ Error al analizar la imagen i+1." on a non-ok response, and the fixed connection error on an exception. |
| `ChatModel.Succeeded` | frontend/app/page.tsx:184-228 | The loop never analyses more images than there are files. |
| `ChatModel.SucceededShape` | frontend/app/page.tsx:184-228 | The number of images analysed before the loop stops is the length of the leading run of successes: every earlier outcome succeeded and the one at that index, if any, did not. |
| `ChatModel.PairsUpToShape` | frontend/app/page.tsx:196-212 | n successes append 2n messages: image i at position 2i and its analysis at 2i+1. |
| `ChatModel.AnalysisAddsTwoPerSuccess` | frontend/app/page.tsx:184-228 | What the loop appends is exactly two messages per image before the first failure, alternating image and analysis, and nothing for the failing image or any after it. |
| `ChatModel.StatusAfter` | frontend/app/page.tsx:184-228 | The status the loop leaves is the one written for the last image it reached: the last image when all succeed, otherwise the first failing one. |
| `ChatPage.PdfStatus` | frontend/app/page.tsx:57-66 | The upload status is "✅ " + the server's message on success, and the fixed error text on a non-ok response or an exception. |
| `ChatPage.ChatSession.constructor` | frontend/app/page.tsx:23-34 | The transcript starts as exactly the one assistant greeting, the input is empty, no files are chosen and every flag is false. |
| `ChatPage.ChatSession.SetInput` | frontend/app/page.tsx:471 | Typing, or a finished transcription, replaces the input. |
| `ChatPage.ChatSession.SetUseInternetSearch` | frontend/app/page.tsx:498 | The checkbox sets the internet-search flag. |
| `ChatPage.ChatSession.SelectPdfFiles` | frontend/app/page.tsx:314 | The PDF picker replaces the chosen PDF list, or clears it. |
| `ChatPage.ChatSession.SelectImageFiles` | frontend/app/page.tsx:343 | The image picker replaces the chosen image list, or clears it. |
| `ChatPage.ChatSession.HandleSend` | frontend/app/page.tsx:249-288 | An input that trims to nothing changes nothing and posts nothing. Otherwise the input is cleared; the untrimmed text is appended as a user message followed by exactly one assistant reply (answer or fixed error); the request posted carries the window of the transcript as it was before the user message; `processing` ends false; the transcript still opens with the greeting. |
| `ChatPage.ChatSession.HandlePdfUpload` | frontend/app/page.tsx:39-69 | No selection or an empty one changes nothing; otherwise the selected files are posted, the status reports the outcome, and `uploading` is false afterwards on every path. |
| `ChatPage.ChatSession.AnalyzeImage` | frontend/app/page.tsx:184-227 | One pass of the loop: a success appends the image and its analysis, a failure appends nothing; the status reports that image; `uploading` is cleared exactly when this is the last index (the finally block). |
| `ChatPage.ChatSession.HandleImageAnalysisForFiles` | frontend/app/page.tsx:121-173 | No files changes nothing. Otherwise the transcript gains the pairs of the images analysed before the first failure, in file order; the status is the last progress message or the first failure's message; `uploading` ends true exactly when the loop stopped before the last index; the greeting stays first. |
| `ChatPage.ChatSession.HandleImageAnalysis` | frontend/app/page.tsx:176-229 | The same loop over the chosen images, with the same result; nothing happens when none are chosen. |
| `ChatPage.ChatSession.HandleDragEnter` | frontend/app/page.tsx:72-83 | Drag-active is set when some dragged item is a file whose type starts with "image/", and is left unchanged otherwise. |
| `ChatPage.ChatSession.HandleDragLeave` | frontend/app/page.tsx:85-89 | Leaving clears drag-active. |
| `ChatPage.ChatSession.HandleDrop` | frontend/app/page.tsx:96-118 | Drag-active always ends false. With no image among the dropped files nothing else changes; otherwise the kept images become the chosen images and the analysis loop runs over them with the same result as above. |
| `Recording.FormatTime` | frontend/components/AudioRecorder.tsx:154-158 | The clock is at least five characters long. |
| `Recording.ParsePadded` | frontend/components/AudioRecorder.tsx:157 | A zero-padded field reads back as the number it shows. |
| `Recording.ClockSplit` | frontend/components/AudioRecorder.tsx:157 | A clock assembled as `m:ss` splits back into its minutes and seconds fields at the colon third from the end. |
| `Recording.FormatTimeFields` | frontend/components/AudioRecorder.tsx:154-158 | The clock is `M…M:SS`: the minutes field has at least two digits and reads as s / 60, the seconds field has exactly two digits and reads as s % 60, which is below 60. |
| `Recording.FormatTimeRoundTrip` | frontend/components/AudioRecorder.tsx:154-158 | Reading the clock back (minutes · 60 + seconds) gives the number of seconds it was made from. |
| `Recording.FormatTimeLength` | frontend/components/AudioRecorder.tsx:157 | The clock is exactly `MM:SS` (five characters) below 6000 seconds and longer from then on; nothing is cut. |
| `Recording.TranscriptionText` | frontend/components/AudioRecorder.tsx:137-147 | `onTranscription` receives `data.text` on success, "Error en la transcripción: " + detail on a non-ok response, and the fixed connection message on an exception. |
| `Recording.Audible` | frontend/components/AudioRecorder.tsx:72-76 | The buffer keeps only chunks that have data, and never more chunks than were delivered. |
| `Recording.AudibleSnoc` | frontend/components/AudioRecorder.tsx:72-76 | A delivered chunk is appended at the end of the buffer exactly when its size is above 0. |
| `Recording.AudibleKeepsAllAudio` | frontend/components/AudioRecorder.tsx:72-83 | Dropping empty chunks loses no audio: the recorded blob has the same bytes as all deliveries joined. |
| `Recording.Recorder.constructor` | frontend/components/AudioRecorder.tsx:13-20 | Not recording, no permission, not processing, clock 0, no chunks, no recorder, no timer. |
| `Recording.Recorder.StartRecording` | frontend/components/AudioRecorder.tsx:54-103 | Nothing happens when disabled. Otherwise permission is granted once a microphone request succeeds; a successful start empties the buffer, sets the clock to 0 and starts recording and the timer; a failed start changes nothing else. |
| `Recording.Recorder.DataAvailable` | frontend/components/AudioRecorder.tsx:72-76 | Only a chunk with data is appended, at the end, and the buffer stays equal to the audible part of everything delivered. |
| `Recording.Recorder.Tick` | frontend/components/AudioRecorder.tsx:96-98 | Each tick adds exactly 1 to the clock. |
| `Recording.Recorder.StopRecording` | frontend/components/AudioRecorder.tsx:105-116 | Acts only when a recorder exists and recording is on: recording stops, the timer is cleared and the clock is reset to 0; otherwise nothing changes. |
| `Recording.Recorder.StartTranscription` | frontend/components/AudioRecorder.tsx:118-151 | Exactly one transcription string, chosen by the outcome, is handed back, and `isProcessing` is false afterwards. |
| `Recording.Recorder.RecorderStopped` | frontend/components/AudioRecorder.tsx:78-88 | The blob sent for transcription is the buffered chunks joined, which is all the delivered audio; its one transcription string is handed back. |
| `Rag.SplitAllCount` | backend/app/rag.py:31-55 | Splitting succeeds exactly when every file loads, and then yields as many chunks as the per-file counts summed. |
| `Rag.SplitAllRaiseStops` | backend/app/rag.py:35-47 | Once a file's loading raises, the call raises that same exception; later files make no difference. |
| `Rag.SplitAll` | backend/app/rag.py:31-47 | When splitting raises, the exception is the one some file's loading raised. |
| `Rag.Converted` | backend/app/rag.py:110-114 | "user" becomes a human message and "assistant" an AI message with the same content; any other role is dropped. |
| `Rag.LcHistory` | backend/app/rag.py:109-114 | The converted history is never longer than the pairs it comes from. |
| `Rag.LcHistoryAppend` | backend/app/rag.py:109-114 | The conversion distributes over concatenation, so it keeps the order of the pairs. |
| `Rag.LcHistoryKnownRoles` | backend/app/rag.py:109-114 | When every role is "user" or "assistant" nothing is dropped: the lengths are equal and pair i becomes message i. |
| `Rag.ToLcHistory` | backend/app/rag.py:108-114 | The append loop builds exactly the converted history. |
| `Rag.RAGService.constructor` | backend/app/rag.py:20-21 | A new service has no vector store. |
| `Rag.RAGService.ProcessPdfs` | backend/app/rag.py:26-56 | A raise while loading propagates and keeps the store. No chunks returns 0 and keeps the store. Otherwise a raise while building the store propagates and keeps it, and a successful build reassigns the store to the one built from this call's chunks and returns their number. |
| `Rag.RAGService.GetAnswer` | backend/app/rag.py:58-122 | Without a store the answer is the fixed "upload documents first" text whatever the question and history; with one it is the chain's answer on the store, the question and the converted history. The history defaults to empty. |
| `Api.ToHttp` | backend/app/main.py:57-59 | A returned value passes through; an exception becomes HTTP 500 with detail `str(e)`. |
| `Api.HistoryOf` | backend/app/main.py:19-21 | An omitted history is the empty list. |
| `Api.FormatHistory` | backend/app/main.py:54 | The conversion succeeds exactly when every entry has at least two elements; then it has the same length and order and element i is (h[i][0], h[i][1]), extra elements dropped; otherwise it raises IndexError. |
| `Api.Contents` | backend/app/main.py:36-39 | One entry per uploaded file, in upload order, each the file's bytes. |
| `Api.UploadMessage` | backend/app/main.py:42 | The success message reads back both counts: the digits after "Procesados exitosamente " parse as the file count, and the digits before " fragmentos." parse as the chunk count. |
| `Api.Chat` | backend/app/main.py:47-59 | A short history entry gives 500 "list index out of range"; otherwise the reply is the fixed text without a store, else the chain's answer on the converted history, an exception there becoming 500. |
| `Api.UploadDocuments` | backend/app/main.py:30-45 | Every file is read in order and processed; success reports `len(files)` and the returned chunk count; a raise becomes 500 with its text; the store is replaced only when chunks were indexed. |
| `HistoryPipeline.Expected` | frontend/app/page.tsx:8-11 | A user message should reach the model as a human message and an assistant message as an AI message, with the same content. |
| `HistoryPipeline.WindowFormats` | backend/app/main.py:54 | The window the page sends never makes `(msg[0], msg[1])` raise, and pair i is the role and content of message i of the window. |
| `HistoryPipeline.PairsConvert` | backend/app/rag.py:109-114 | Pairs built from page messages convert one message each, pair i to the human or AI message its message should become. |
| `HistoryPipeline.SentHistoryReachesTheChain` | frontend/app/page.tsx:259 | From the page's window through `main.py:54` and `rag.py:109-114`: nothing raises, nothing is dropped, and message i of the window reaches the chain as the matching human or AI message. |

## Left out

- Rendering: the JSX, classes, Markdown display and the scroll effect (page.tsx:231-246, 290-514) are presentation only. The same goes for `handleDragOver` (page.tsx:91-94), which only stops the browser's default, and for `frontend/app/layout.tsx`.
- Browser plumbing: `fetch`, `FormData`, `URL.createObjectURL`, `DataTransfer` and JSON parsing are replaced by outcome parameters. The object URL of an analysed image is carried in its `Analyzed` outcome.
- Console and alert: `console.error`, `traceback.print_exc` and `alert` only print.
- Host media and timer APIs: `MediaRecorder`, `getUserMedia` and `setInterval`/`clearInterval` become the events `StartRecording` (with the outcomes of the two microphone requests), `DataAvailable`, `Tick`, `StopRecording` and `RecorderStopped`.
- Permissions query and unmount cleanup: the start-up permission query (AudioRecorder.tsx:33-52) and the unmount cleanup (AudioRecorder.tsx:23-30) are not modelled. `permissionGranted` starts false and only `StartRecording` sets it.
- Backend libraries: LangChain, OpenAI embeddings, Chroma, prompt templates, retrieval with k=3 and the LLM call (rag.py:23-24, 66-106, 117-122) become the `chain` function. PDF loading, the text splitter and the temp files (rag.py:34-46) become the `load` function. Building the store becomes the `index` attempt.
- FastAPI setup: app setup, CORS, Pydantic validation and `read_root` (main.py:8-28) are framework configuration. Request bodies are assumed to have the declared types.
- Other endpoints: `/chat_with_internet`, `/analyze_image` and `/transcribe` are called by the page but are not defined in `main.py`, so they are not part of this model. Their answers are outcome parameters.
- Concurrency: overlapping handlers and interleaved React state updates are not modelled. Each handler runs to completion, and the analysis started by a drop is treated as finishing before the next event.
- ChatPage.ChatSession.HandleSend: the reply carries the response's `answer` field as a string. The page does not check `response.ok`, so a non-2xx JSON body without `answer` gives JavaScript's `undefined`, which the model does not represent.
- HistoryPipeline.SentHistoryReachesTheChain: holds only while every message in the window has string content. After a non-2xx `/chat` reply the page stores the missing `answer` as `undefined` (page.tsx:280-281). The next send puts that entry into the window (page.tsx:259), and `JSON.stringify` sends it as `null` (page.tsx:277). `history: List[List[str]]` (main.py:21) then rejects the body with 422 before main.py:54 runs. The page stores `undefined` again, so every later send fails the same way. The model has no non-ok chat reply, so this path is not represented.
- Rag.RAGService.ProcessPdfs: the model records only which chunks the new store was built from. What the built store holds beyond this call's chunks is up to Chroma and is not modelled. With a shared client and a get-or-create collection, chunks from earlier uploads may still be there.
- ChatPage.ChatSession.HandleImageAnalysisForFiles: requires one outcome per file, because the server's answers are supplied as a sequence aligned with the files.
- Recording.Recorder.StartRecording: requires that no recording is in progress, because the button calls `stopRecording` instead while recording (AudioRecorder.tsx:164). A throw from `mediaRecorder.start()` is folded into the stream outcome. The source has by then already emptied the chunk buffer (AudioRecorder.tsx:70) and stored the recorder (AudioRecorder.tsx:90), while the model's failed start keeps both. Nothing later can observe the difference: the next successful start empties the buffer again and replaces the recorder, and `stopRecording` does nothing while not recording.
- Recording.Recorder.Tick: requires a running timer, because the interval callback only fires while it is set.
- Recording.FormatTime: takes a non-negative integer, because `recordingTime` only ever holds non-negative whole seconds. Negative or fractional inputs are not modelled.
- Api.UploadDocuments: reading an uploaded file (`await file.read()`) cannot fail in the model.
