# Cotton Advisory RAG — a Dafny model

This project models the question-answering core of the Cotton Advisory
assistant, which answers questions about cotton pest and disease
management from the ICAR-CICR advisory document. It covers four programs:

- **app.py**, the Gradio application, with its `CottonRAGSystem`. It starts
  up by checking the Gemini key and loading the chunk corpus, the FAISS
  index and the sentence embedder into module globals. Its `retrieve`
  drops search positions past the corpus. `format_context_with_citations`
  writes one `[Source p.X]` line per chunk. `answer_question` retries up
  to `max_retries` times, with exponential back-off.
- **backend/main.py**, the FastAPI back end. It has the same start-up.
  Its retrieval pairs each hit with its own rank's distance. Its
  `answer_question` is single-shot: it adds the last three turns of
  conversation history to the prompt and maps every exception to one of
  five fixed user messages. It also serves `/api/status` and `/api/chat`.
- **rag_qa.py**, the command-line pipeline. Its `answer_question` takes
  an optional explicit key. Its retrieval has no bounds filter.
- **frontend/app/page.tsx**, the Next.js chat page. It keeps a list of
  chat sessions and the current one. Messages are sent, regenerated,
  edited and deleted by updaters of that list.

The outside world enters as values:

- The embedder plus the FAISS index are one `Search(D, I)`: row 0 of
  `index.search`.
- The Gemini model is a `GenOutcome`: the text it returned, or the
  exception it raised.
- The environment's `GEMINI_API_KEY` is an `Option<string>`.
- The start-up's surroundings are one `Startup.Inputs` value. It gives the
  key, whether `chunks.pkl` and `faiss_index.bin` exist, and what
  unpickling returns or raises, including a dictionary without its
  `texts` or `metadatas` entry. It also gives whether `faiss.read_index`
  and the `SentenceTransformer` constructor return or raise.
- The frontend's `fetch` of `/api/chat` is a `FetchOutcome`: an answer,
  a non-ok HTTP status, or a rejected promise with its message.
- The ids the page draws from `Date.now()` are parameters.

Python list indexing is modelled exactly (`Pipeline.PyIndex`). A negative
index counts from the end, and an index outside `-len .. len-1` raises
`IndexError`. So the `-1` that FAISS pads with passes the filter
`idx < len(texts)` and reads the last chunk.

The module globals of app.py and backend/main.py are a `Pipeline.Globals`
object. Each `initialize_system` is a method that changes it step by
step. Both are proved against one function, `Startup.Initialize`, which
gives the new globals and the exception that ended the start-up. The page
component's state is a `Frontend.ChatPage` object with three fields:

- `sessions`;
- `currentId`;
- `ui`, which holds the input box, the loading flag, the error banner and
  the edit state.

Each handler is a method on that object. What a handler does to the
session list is given by a function on the list, and lemmas prove that the
function changes the current session as intended and nothing else.

Three behaviours of the code are easy to miss; the model follows the code
as written:

- **app.py pairs distances with output positions.** Its `retrieve` takes
  each hit's distance from `D[0][len(results)]`, the output position, not
  from the hit's own search rank. Once a position has been skipped,
  later hits carry the distance of an earlier rank.
  `App.RetrieveDistanceDrift` states the exact offset and
  `App.RetrieveDistanceDriftExample` gives an instance. backend/main.py
  pairs by rank (`Backend.RetrievePairsRanks`).
- **rag_qa.py fails on bad positions.** A position past the corpus raises
  `IndexError` instead of being dropped (`RagQa.RetrievePastEndFails`).
- **FAISS's `-1` padding is not dropped.** The filter lets it through,
  and it reads the last chunk (`Pipeline.MinusOneReadsLastChunk`).

Other behaviours are also modelled as written:

- A context entry whose `role` is `null` or another non-string makes
  `.upper()` raise `AttributeError`, so the answer is the failure
  message chosen for that error's text, before the model is checked
  (`Backend.HistoryFailsAtFirstBadRole`, `Backend.AnswerOutcomes`). A `null` content is
  shown as `None` (`Backend.NullContentShowsNone`).
- `/api/chat` raises its 503 for a missing model inside its own `try`.
  The `except Exception` turns it into a 500 whose detail is
  `Internal server error: 503: System not initialized. Please check server logs.`.
- backend/main.py creates the model handle before it checks the files. A
  missing file therefore leaves `/api/status` reporting "healthy" with no
  index loaded.
- Each global is assigned as soon as its load returns, and a later
  failure does not undo it. If only the embedder fails to load,
  `/api/status` reports a healthy system with the index and chunks
  loaded, while `retrieve` raises "System not initialized"
  (`Backend.EmbedderFailureLooksLoaded`).
- `saveEdit` calls `regenerateResponse` from the same render. The
  regeneration request therefore carries the message's text from before
  the edit, while the session shows the edited text
  (`Frontend.ChatPage.SaveEdit`).
- The page sends the last five messages as context. The back end writes
  only the last three into its prompt (`Frontend.BackendSeesLastThree`).

## Model

| member | source | states |
|---|---|---|
| Strings.StripIsTrimmedSlice | app.py:43 | `strip` keeps one contiguous piece of the key with only whitespace around it and none at its ends |
| Strings.StripEmptyIffAllSpace | app.py:111 | a string strips to nothing exactly when it is all whitespace |
| Strings.StripIdempotent | app.py:43 | stripping twice is stripping once |
| Strings.LStripDrops | app.py:43 | `lstrip` removes the leading whitespace and nothing else |
| Strings.RStripDrops | app.py:43 | `rstrip` removes the trailing whitespace and nothing else |
| Strings.SeparatorsDiffer | frontend/app/page.tsx:153 | JavaScript's `trim` keeps the information separators that Python's `strip` removes, and removes the byte-order mark that `strip` keeps |
| Strings.Lower | backend/main.py:201-207 | `lower` has the same length and lower-cases each ASCII letter in place |
| Strings.Upper | backend/main.py:156 | `upper` has the same length and upper-cases each ASCII letter in place |
| Strings.Take | rag_qa.py:55 | `s[:n]` is the prefix of length `min(n, len(s))` |
| Strings.Last | backend/main.py:153 | `s[-n:]` is the suffix of length `min(n, len(s))` |
| Strings.NatToString | frontend/app/page.tsx:198 | the decimal rendering of a status is a non-empty string of digits whose value is the status, with no leading zero |
| Pipeline.PyAt | app.py:88-89 | a valid negative index reads from the end, a non-negative one directly |
| Pipeline.PyIndex | app.py:88-89 | list indexing succeeds exactly for `-len <= i < len` and otherwise raises `IndexError` |
| Pipeline.MinusOneReadsLastChunk | app.py:85-89 | FAISS's `-1` passes `idx < len(texts)` and reads the last chunk and its metadata |
| Pipeline.KeptRanksExact | app.py:85-86 | the kept search ranks are exactly those whose index is below `len(texts)`, each once, in increasing order |
| Pipeline.RankKept | backend/main.py:115-116 | a rank whose index passes the filter is kept |
| Pipeline.KeptRanksSnoc | app.py:85-86 | one more search position is kept exactly when its index passes the filter |
| Pipeline.SkippedNone | app.py:85-86 | no rank is skipped exactly when every index passes the filter |
| Pipeline.KeptPlusSkipped | app.py:85-86 | every rank is either kept or skipped |
| Pipeline.KeptRanksOfPrefix | app.py:85-86 | filtering a prefix of the search gives a prefix of the kept ranks |
| Pipeline.KeptRankOffset | app.py:85-90 | the j-th kept rank lies after position j by exactly the number of ranks skipped before it |
| Pipeline.PageOf | app.py:102 | the page is `page_label`, else `page`, else `?` |
| Pipeline.ContextConcat | app.py:100-104 | the context of a concatenation of results is the concatenation of their contexts |
| Pipeline.ContextSplitsAt | app.py:100-104 | the j-th result's citation line sits between the lines of the results before and after it |
| Pipeline.FormatContextWithCitations | app.py:98-104 | the loop builds one citation line per result, in order, and no results give the empty context; backend/main.py:128-134 ends each line with a blank line too, rag_qa.py:37-42 with a single newline |
| Pipeline.Globals.constructor | app.py:20-25 | at import every global is `None` |
| Pipeline.Globals.Snapshot | app.py:78 | retrieval is possible exactly when both the embedder and the index are loaded, and then reads the loaded corpus |
| Credentials.CheckEnvKeyRejects | app.py:39-45 | a missing or empty key raises "not found"; a whitespace-only key raises "Invalid API key format" (the same checks as backend/main.py:69-75) |
| Credentials.CheckEnvKeyAccepted | app.py:43-45 | an accepted key starts with `AIza` and is the environment's value without surrounding whitespace |
| Credentials.SelectKeyOutcomes | rag_qa.py:47-55 | an explicit key ignores the environment; a missing environment key raises "not found"; otherwise the outcome agrees with the start-up check |
| Credentials.SelectKeyQuotesKey | rag_qa.py:53-55 | a present key is accepted exactly when it starts with `AIza` after stripping; otherwise the error quotes its first ten characters after the fixed lead |
| Startup.InitializeOutcome | app.py:37-73 | the start-up succeeds exactly when the key is good, both files exist and every load returns; a bad key changes nothing; a good key always creates the model handle; success loads everything; the globals stay consistent (same steps as backend/main.py:63-103) |
| Startup.InitializeFirstError | app.py:52-65 | the steps run in order (file checks, unpickling, the `texts` and `metadatas` entries, the index, the embedder) and the first that raises gives the error |
| Startup.InitializeAssigns | app.py:57-65 | each global is assigned exactly when its step is reached and returns, and otherwise keeps its old value |
| Startup.EmbedderFailureKeepsIndex | app.py:62-65 | a failing embedder load leaves the model, corpus and index of that start-up assigned and the embedder as it was |
| App.InitializeSystem | app.py:33-73 | the globals change as the start-up function gives; success gives the success message, and any exception gives `❌ Initialization Error: ` and its text |
| App.HitsByOutputPositionSnoc | app.py:87-91 | a newly kept rank appends its chunk with the distance of the next output position |
| App.Retrieve | app.py:75-96 | the loop returns "not initialized" without embedder or index, IndexError when a kept index is unreadable, else one hit per kept rank |
| App.RetrieveDistanceDrift | app.py:84-93 | a hit holds its own rank's chunk but `D[j]` of its output position; this is its own rank's distance exactly when no earlier rank was skipped |
| App.RetrieveDistanceDriftExample | app.py:85-91 | with the first position out of range, the chunk of rank 1 is reported at rank 0's distance |
| App.FinalErrorNamesError | app.py:162-163 | the final failure message contains the exception's type, then its text |
| App.PromptCarries | app.py:125-140 | the prompt carries the context and then the question verbatim, after the fixed head |
| App.Passes | app.py:114-117 | there is one pass per attempt |
| App.PassesAt | app.py:114-153 | attempt t makes the pass that one `try` block gives for what it sees |
| App.RetryShape | app.py:114-166 | the loop makes between 1 and `max_retries` attempts; all but the last raised; the last one's return is the result, or it raised and was attempt `max_retries-1` and gave the error message |
| App.RetrySleeps | app.py:157-159 | after each failed attempt t except the last, the loop sleeps `2 ** t` |
| App.RetryRequests | app.py:114-164 | the prompts sent are those of the attempts made, in order |
| App.TryOnceOutcomes | app.py:115-153 | a successful pass returns the model's text of at least ten characters after stripping; an empty retrieval returns "no relevant information" without generation; at most one prompt, none without a model |
| App.AnswerOutcomes | app.py:106-166 | a blank query is refused; `max_retries <= 0` gives the maximum-retries message; at most `max_retries` attempts; a success is the last attempt's reply of at least ten characters after stripping |
| App.EmptyRetrievalEndsAnswer | app.py:119-120 | an empty first retrieval ends the call at once, without generation or sleeping |
| App.SucceedsOnThirdAttempt | app.py:114-159 | two failures then a good reply give that reply after sleeping 1 and 2 seconds |
| App.FailsAfterThreeAttempts | app.py:155-164 | three failures give the third exception's message after sleeping 1 and 2 seconds |
| App.TryAttempt | app.py:115-153 | one `try` block ends as the pass specification says, with the prompt it sent |
| App.RetryLoopStep | app.py:155-164 | a failed attempt that is not the last adds its sleep and its prompts and moves on; any other attempt ends the loop |
| App.AnswerQuestion | app.py:106-166 | the answer, success flag, sleeps, prompts and attempt count are those of the retry specification |
| Backend.StatusReports | backend/main.py:233-242 | the status is healthy exactly when the model is loaded, reports the index as loaded exactly when it is, and counts the chunks |
| Backend.InitializeSystem | backend/main.py:63-103 | the globals change as the start-up function gives, and the result is `True` exactly when no step raised |
| Backend.InitializeReports | backend/main.py:63-103 | a good key makes the status healthy whatever fails afterwards; a bad key leaves the status as it was; success reports everything loaded with the chunk count |
| Backend.EmbedderFailureLooksLoaded | backend/main.py:87-93 | after a fresh start whose embedder load fails, the status is healthy with the index and chunks loaded, yet retrieval raises "System not initialized" |
| Backend.HitsByRankSnoc | backend/main.py:115-121 | a newly kept rank appends its chunk with its own rank's distance |
| Backend.Retrieve | backend/main.py:105-126 | the loop returns "not initialized" without embedder or index, IndexError when a kept index is unreadable, else one hit per kept rank |
| Backend.RetrievePairsRanks | backend/main.py:114-123 | each hit holds the chunk and the distance of the same search rank; the ranks increase; every rank that passes the filter gives a hit |
| Backend.RetrieveKeepsDistanceOrder | backend/main.py:115-121 | when the search's distances do not decrease, neither do the hits' |
| Backend.TurnLinesSucceed | backend/main.py:153-156 | the lines are built exactly when every role is a string or absent |
| Backend.TurnLinesFailAtFirst | backend/main.py:154-156 | the first role that is not a string raises `AttributeError` naming its type |
| Backend.TurnLinesUpToThree | backend/main.py:153-156 | the lines of up to three turns with text roles, in order |
| Backend.HistoryShape | backend/main.py:150-156 | the history is empty exactly when there is no context; it is built exactly when the last three roles are text, and then it is the heading and the lines of the last `min(3, n)` turns, oldest first |
| Backend.HistoryFailsAtFirstBadRole | backend/main.py:153-156 | among the last three turns, the first whose role is not a string makes the history raise its `AttributeError` |
| Backend.NullRoleFails | backend/main.py:153-156 | in a context of any length, a `null` role among the last three turns, after only text roles within those three, raises `'NoneType' object has no attribute 'upper'`, whatever its content and whatever the older and later turns hold |
| Backend.NullContentShowsNone | backend/main.py:155-156 | a `null` content is shown as `None` |
| Backend.TurnLineDefaultsToUser | backend/main.py:154-156 | a turn without a role is shown as `USER:` |
| Backend.BuildHistory | backend/main.py:150-156 | the loop builds the history block, or stops with the error of the first role that is not a string |
| Backend.PromptCarries | backend/main.py:159-175 | the prompt carries the history after the instruction, then the context and the question after the guidelines |
| Backend.Sources | backend/main.py:188-191 | there is one source per hit, at most three |
| Backend.SourcesShape | backend/main.py:187-191 | the sources are the first three hits in order, each with its `page` key (or `?`) and exactly the first `min(200, len)` characters of its text followed by `...` |
| Backend.SourcePageIgnoresLabel | backend/main.py:189 | the sources read `page` and ignore `page_label`, where the citation context prefers `page_label` |
| Backend.UserMessageFirstMatch | backend/main.py:200-210 | each of the five messages is given exactly when its rule is the first to match |
| Backend.UserMessageIgnoresCase | backend/main.py:201-208 | apart from the `404` test, the letter case of the error does not matter |
| Backend.UserMessage404BeforeApiKey | backend/main.py:201-208 | an error containing `404` is reported as unavailable even if it also mentions the API key |
| Backend.AnswerOutcomes | backend/main.py:136-212 | a blank query and an empty retrieval end without generation; a history error ends with its message before the model check; a success is the model's reply of at least ten characters with the sources of the first hits; a failure has no sources and a fixed message; at most one prompt, with the history, context and query |
| Backend.AnswerQuestion | backend/main.py:136-212 | the answer, success flag, sources and prompt are those of the answer specification |
| Backend.ChatOutcomes | backend/main.py:244-267 | without a model the endpoint answers 500; otherwise it answers, with sources exactly when the answer succeeded |
| Backend.Chat | backend/main.py:244-267 | the endpoint's response and the prompt are those of the chat specification |
| RagQa.PassagesAt | rag_qa.py:29-33 | one passage per index, in order |
| RagQa.Retrieve | rag_qa.py:25-34 | the loop returns the passage at every search position, or IndexError |
| RagQa.RetrieveOnePerPosition | rag_qa.py:28-34 | without a filter, a retrieval has exactly one passage per search position and fails exactly when some position is unreadable |
| RagQa.RetrievePastEndFails | rag_qa.py:29-33 | a position past the corpus makes the whole retrieval fail, although the bounds filter would skip it |
| RagQa.PromptCarries | rag_qa.py:59-63 | the prompt carries the context and then the question, and ends with the answer cue |
| RagQa.AnswerOutcomes | rag_qa.py:46-67 | a bad key raises before anything else, whatever the corpus and model do; the model is called at most once, with the checked key and the prompt for the context; its text is returned unchecked |
| RagQa.AnswerQuestion | rag_qa.py:46-67 | the result and the call to the model are those of the answer specification |
| Frontend.Find | frontend/app/page.tsx:47 | `find` returns a session with the id, and none exactly when no session has it |
| Frontend.IndexOf | frontend/app/page.tsx:233 | `findIndex` is the first position with the id, or -1 exactly when there is none |
| Frontend.FindDistinct | frontend/app/page.tsx:47 | with distinct ids, the session found under an id is the one at its position |
| Frontend.Apply | frontend/app/page.tsx:114-116 | an updater keeps the session's id |
| Frontend.UpdateWhere | frontend/app/page.tsx:114-116 | the map keeps the number of sessions |
| Frontend.UpdateWhereFrame | frontend/app/page.tsx:114-116 | the map changes only the sessions with the id and keeps every id in place; an absent id changes nothing |
| Frontend.UpdateWhereFind | frontend/app/page.tsx:114-116 | what is found under the id is changed; what is found under any other id is not |
| Frontend.UpdateWhereReplaces | frontend/app/page.tsx:114-116 | the map replaces the current session with its updated value and leaves every other session as it was |
| Frontend.ReplacesKeepsDistinct | frontend/app/page.tsx:114-116 | replacing a session keeps the ids distinct |
| Frontend.UpdateWhereKeepsValid | frontend/app/page.tsx:114-116 | a map over the sessions keeps the ids distinct and the current session present |
| Frontend.TitleShape | frontend/app/page.tsx:113 | a title has at most 33 characters: up to 30 characters are kept, a longer message is cut to 30 and marked `...` |
| Frontend.WithoutExact | frontend/app/page.tsx:100 | the filter removes exactly the sessions with the id and keeps the ids distinct |
| Frontend.WithoutKeepsValid | frontend/app/page.tsx:97-108 | deleting another session keeps the current one, and the new first session is findable |
| Frontend.WithoutConcat | frontend/app/page.tsx:100 | the filter keeps the order of the sessions |
| Frontend.Turns | frontend/app/page.tsx:181-184 | each context entry carries the message's role and content |
| Frontend.FetchErrorTextFirstMatch | frontend/app/page.tsx:216-223 | each of the three banners is shown exactly when its rule is the first to match |
| Frontend.NotFoundStatusIsUnavailable | frontend/app/page.tsx:197-218 | a 404 response is reported as the AI service being unavailable |
| Frontend.SendUpdateReplaces | frontend/app/page.tsx:162-214 | sending changes only the current session: it gains the user message and then the reply, and an empty session takes its title from the message |
| Frontend.SendUpdateKeepsValid | frontend/app/page.tsx:162-214 | sending keeps the ids distinct and the current session present |
| Frontend.RegenerateUpdateReplaces | frontend/app/page.tsx:238-282 | regenerating changes only the current session: it keeps the messages up to the user message, then the reply |
| Frontend.RegenerateUpdateKeepsValid | frontend/app/page.tsx:238-282 | regenerating keeps the ids distinct and the current session present |
| Frontend.EditReplaces | frontend/app/page.tsx:305-316 | an edit changes only the current session: the message takes the new content and the later messages are dropped |
| Frontend.EditThenRegenerate | frontend/app/page.tsx:296-325 | after editing a user message and regenerating, the session holds the earlier messages, the edited message and the reply; other sessions are untouched |
| Frontend.BackendSeesLastThree | frontend/app/page.tsx:180-184 | of the five messages sent as context, the back end's history shows the same as for the last three, and it is always built because every role sent is a string |
| Frontend.ChatPage.constructor | frontend/app/page.tsx:33-40 | the first render has no sessions, no current chat, empty input and no error or edit |
| Frontend.ChatPage.CreateNewChat | frontend/app/page.tsx:85-95 | a new empty "New Chat" session is put first and becomes current |
| Frontend.ChatPage.DeleteChat | frontend/app/page.tsx:97-110 | the session is removed; deleting the current one makes the first remaining current; a new chat is scheduled exactly when none remain |
| Frontend.ChatPage.UpdateChatTitle | frontend/app/page.tsx:112-117 | the session with the id takes the title cut from the message |
| Frontend.ChatPage.SendMessage | frontend/app/page.tsx:151-228 | a blank text, a request in flight or no current chat changes nothing; otherwise the request carries the message and the last five messages, the session update is the send update, the input is cleared and the error is the classified banner |
| Frontend.ChatPage.Regenerate | frontend/app/page.tsx:230-289 | an unknown message changes nothing; otherwise the request carries that message and the five before it, the session is cut after it and gains the reply, and a failure shows the regenerate banner |
| Frontend.ChatPage.RegenerateResponse | frontend/app/page.tsx:230-289 | regenerating from the current render, with the same outcome as above |
| Frontend.ChatPage.StartEdit | frontend/app/page.tsx:291-294 | only the edit state changes, to the message's id and content |
| Frontend.ChatPage.CancelEdit | frontend/app/page.tsx:327-330 | only the edit state changes, back to none |
| Frontend.ChatPage.SaveEdit | frontend/app/page.tsx:296-325 | nothing happens without an edit, with blank content, without a current chat or for an unknown message; otherwise the edit is applied and closed, and a user message is regenerated with its pre-edit text |
| Frontend.ChatPage.DeleteMessage | frontend/app/page.tsx:332-342 | the current session keeps only the messages before the one with the id; an unknown id changes nothing |
| Frontend.ChatPage.ClearChat | frontend/app/page.tsx:379-389 | the current session loses its messages and is titled "New Chat", and the error is cleared |

## Left out

- Printing, `traceback` output and `console.error`: they only log.
- `time.sleep` is not performed. The delays are recorded as the `sleeps` of `App.AnswerQuestion`.
- `load_dotenv`, `os.getenv`, `os.path.exists`, `pickle.load`, `faiss.read_index` and the `SentenceTransformer` constructor are inputs, not file or environment access. Unpickling is given as the two entries the start-up reads or the exception it raises. A pickle that is not a dictionary is not modelled.
- Page numbers are kept as text, as `str` renders them. PyPDFLoader stores an integer `page`, so the `sources` of `/api/chat` carry a JSON number (or the string `?`). That type difference is not modelled.
- The sentence embedder, the FAISS search and the Gemini model are given as inputs (`Search`, `GenOutcome`). Their internals are not modelled, and nor is `genai.configure`.
- Distances are reals that are only compared. NumPy `float32` and the `float(...)` conversion are not modelled.
- Strings: `strip` and `trim` use each runtime's own whitespace set, but `lower` and `upper` change ASCII letters only, not Python's Unicode case tables. JavaScript string lengths are counted in characters, not UTF-16 units.
- A non-string `role` or `content` in the request's context is given by its Python type name and its `str` text. How `str` renders a number, list or object is not modelled.
- Backend.ChatSpec: `str()` of an `HTTPException` is taken to be `"<status>: <detail>"`.
- The Gradio interface of app.py, the `gr.Blocks` callbacks and everything after line 168 of app.py are not part of this model. They are UI wiring around `answer_question`.
- FastAPI plumbing is not modelled: the app object, CORS, the pydantic request and response classes, the startup event, `/` and `/api/examples`. They carry no logic beyond calling the modelled functions.
- The prompts of app.py and backend/main.py are given as `Request` records of their variable parts. Their fixed text is kept in constants, and the prompt functions state where each part sits.
- rag_qa.py's module-level loading and its `__main__` reading from `input()` are not modelled. The loaded corpus is a parameter.
- page.tsx's `localStorage` load and save, timestamps and `createdAt`/`updatedAt` are not modelled. The persisted state carries no logic beyond the session list.
- Frontend.ChatPage.SendMessage: the state between the `await` and its completion is not modelled. Each handler runs to its end with the fetch outcome as a parameter, so overlapping requests and React's batching of updaters are not captured.
- Frontend.ChatPage.DeleteChat and Frontend.ChatPage.ClearChat: the `confirm` dialog is taken as accepted. A refusal changes nothing.
- Frontend.ChatPage.DeleteChat: the `setTimeout(createNewChat, 100)` is returned as the `scheduled` flag, and the caller then runs `CreateNewChat`.
- `Date.now()` ids are parameters (`newId`, `userId`, `assistantId`). `CreateNewChat` requires the new id to be unused, as a clock tick provides.
- page.tsx's `exportChat`, `copyToClipboard`, scrolling, the error auto-dismiss timer, the sidebar and history toggles, and the rendering are not modelled. They are presentation.
- A 2xx response without an `answer` field, and `response.json()` failing, are not modelled. The fetch outcome is one of answer, status or rejection.
- The page keeps its `input`, `isLoading`, `error`, `editingId` and `editContent` state hooks together in one `ui` field. `copiedIndex` and the display flags are not modelled.
- frontend/app/layout.tsx, chunk_and_embed.py, load_pdf.py and test_rag.py are not part of this model. They lay out the page, build the corpus and the index offline, or hold an ad-hoc test script.
