# NUBot retrieve-then-generate pipeline, modelled in Dafny

NUBot answers a question in two stages. First it retrieves passages from a FAISS
vector index. Then it asks a Mistral chat model to answer from those passages.
A successful invocation is recorded in MLflow as a top-level `RAG_Pipeline` run
with two nested runs, `retrieval` and `generation`. When the search fails, no
`generation` run is opened.

This project models the logic the repository itself adds around those libraries:

- the state record threaded through the two-node LangGraph graph, and how each stage's partial result is merged into it;
- the metadata-only projection of retrieved documents that gets logged;
- how the context string is assembled, and the two measurements taken of it (word count and length);
- the order of tracker calls in each stage and in the orchestrator;
- the orchestrator's error contract;
- the three `lru_cache` getters for the chat model, the prompt template and the embedding model.

Modules:

- `Wrappers` (`wrappers.dfy`): `Option`, and `Outcome` (a value, or a raised exception reduced to `str(e)`).
- `Text` (`text.dfy`): `Join` (`sep.join`), `Words`/`WordCount` (`str.split()` and its length) and their lemmas.
- `Tracking` (`tracking.dfy`): the tracker as a class with an append-only event log and the stack of open runs. `Replay` recomputes that stack from a log.
- `Memo` (`memo.dfy`): one `lru_cache(maxsize=None)` slot. `Slot`/`Call`/`CallAll` are the functional specification. `Cache` is the class: its one compiled field is the stored `Option`, and the construction and success counts are ghost bookkeeping.
- `RagModel` (`rag_model.dfy`): documents, the state, the projection and context assembly. `RetrieveRun`, `GenerateRun`, `InvokeGraph` and `Pipeline` are specification functions. Each stage's log is its nested run around named groups of records (`RetrievalRecords`, `ContextRecords`, `ReplyRecords`). `Retrieve`, `Generate`, `RunGraph`, `TrackPipeline` (the `with` block) and `GenerateResponse` (the `with` block plus the exception handler) are the imperative step sequences on a `Tracker`. Each is proved to append exactly its specification's trace and return its outcome. `Resources` holds the three cached getters.

The similarity search is the parameter `search: string -> Outcome<seq<Doc>>`. The prompt template and the chat model together are `answerFor: PromptInput -> Outcome<string>`: render the template with `{question, context}`, call the model, and yield the reply's `content` or the failure.

Behaviour of the code worth noting:

- The `error` parameter is logged after the `with` block has closed `RAG_Pipeline` (`prefectWorkflows/dataflow/rag_model.py:122` against `130-131`), not under that run. `PipelineRunsClosed` states this: on failure, the open-run stack is back to the caller's when the error is logged.
- The code raises a plain `Exception(e)`. It has no dedicated pipeline error type. `PipelineError(cause)` stands for that wrapper.
- The answer is the reply's `content` as returned, so the model does not promise it is non-empty.
- The chat model and prompt template are fetched once, at module load (`rag_model.py:91`, `93`), not through the cache inside the generation stage. So `Generate` takes `answerFor` directly.

Word counting uses `IsSpace`: the ASCII characters Python's `str.split()` treats as whitespace. These are 9–13, 28–31 and space.

## Model

| member | source | states |
|---|---|---|
| `Text.JoinLength` | prefectWorkflows/dataflow/rag_model.py:97-101 | the joined context is as long as its passages plus one separator between each two neighbours; no passages give length 0 |
| `Text.Join` | prefectWorkflows/dataflow/rag_model.py:97 | `sep.join(parts)` of a non-empty list starts with the first part verbatim; the full layout is stated by the three lemmas around it |
| `Text.JoinPartAt` | prefectWorkflows/dataflow/rag_model.py:97 | passage `i` appears verbatim at its offset (all earlier passages and separators), so the join keeps the given order |
| `Text.JoinSeparatorAfter` | prefectWorkflows/dataflow/rag_model.py:97 | exactly one separator follows every passage except the last |
| `Text.Words` | prefectWorkflows/dataflow/rag_model.py:98 | `split()` yields only non-empty words that contain no whitespace, yields none exactly for an all-whitespace string, and a string starting with a non-whitespace character yields its maximal whitespace-free prefix as the first word |
| `Text.WordCount` | prefectWorkflows/dataflow/rag_model.py:98 | `len(s.split())` is 0 exactly when the string is empty or all whitespace |
| `Text.WordsKeepEveryNonSpace` | prefectWorkflows/dataflow/rag_model.py:98 | putting the words back together gives exactly the non-whitespace characters of the input, in order |
| `Text.WordCountIsRunCount` | prefectWorkflows/dataflow/rag_model.py:98 | `len(s.split())` equals the number of maximal whitespace-free runs, counted by an independent left-to-right scan |
| `Text.WordCountAcrossSpace` | prefectWorkflows/dataflow/rag_model.py:97-98 | a non-empty whitespace separator between two strings neither merges nor creates words |
| `Text.WordCountOfJoin` | prefectWorkflows/dataflow/rag_model.py:97-98 | the word count of passages joined by whitespace is the sum of the passages' word counts |
| `Tracking.Tracker.StartRun` | prefectWorkflows/dataflow/rag_model.py:74 | entering a run's `with` block appends a start event and pushes the run on the open-run stack |
| `Tracking.Tracker.EndRun` | prefectWorkflows/dataflow/rag_model.py:87 | leaving a `with` block (normally or by exception) appends an end event and pops the innermost run |
| `Tracking.Tracker.LogParam` | prefectWorkflows/dataflow/rag_model.py:85 | `log_param` appends one parameter event and leaves the open runs unchanged |
| `Tracking.Tracker.LogMetric` | prefectWorkflows/dataflow/rag_model.py:84 | `log_metric` appends one metric event (key only) and leaves the open runs unchanged |
| `Tracking.Tracker.LogDict` | prefectWorkflows/dataflow/rag_model.py:86 | `log_dict` appends one artifact event with its payload and leaves the open runs unchanged |
| `Tracking.ReplayAppend` | prefectWorkflows/dataflow/rag_model.py:122-128 | the open-run stack after a log split in two is that of the second piece replayed from the first's result, so nested `with` blocks compose |
| `Memo.Call` | prefectWorkflows/dataflow/rag_model.py:30-33 | one cached call keeps the invariant that at most one construction has succeeded and a handle is stored exactly when one has |
| `Memo.CallAll` | prefectWorkflows/dataflow/rag_model.py:30-33 | a series of calls gives one result per call, keeps the cache invariant throughout, and never lowers the construction count |
| `Memo.CachedHandleIsReturned` | prefectWorkflows/dataflow/rag_model.py:30-33 | once a handle is stored, every later call returns that handle and constructs nothing |
| `Memo.ConstructedAtMostOnce` | prefectWorkflows/dataflow/rag_model.py:30-52 | from an empty cache, each call up to the first successful construction runs the constructor and returns its result, failures are not stored, every later call returns the same handle, and the constructor succeeds at most once |
| `Memo.Cache.Get` | prefectWorkflows/dataflow/rag_model.py:30-33 | the getter runs the constructor only when nothing is stored, stores only a success, and otherwise returns the stored handle unchanged |
| `RagModel.Resources.GetLlm` | prefectWorkflows/dataflow/rag_model.py:30-33 | `get_llm()` constructs `init_chat_model("mistral-large-latest", "mistralai")` only while nothing is cached, else returns the cached handle |
| `RagModel.Resources.GetPrompt` | prefectWorkflows/dataflow/rag_model.py:35-39 | `get_prompt()` pulls `rlm/rag-prompt` only while nothing is cached, else returns the cached template |
| `RagModel.Resources.LoadEmbeddings` | prefectWorkflows/dataflow/rag_model.py:49-52 | `load_embeddings()` builds the MiniLM embedding model only while nothing is cached, else returns the cached handle |
| `RagModel.Merge` | prefectWorkflows/dataflow/rag_model.py:88 | a stage's partial record overwrites only its own key (`context` from retrieval here, `answer` from generation at line 116) and keeps the question and the other key |
| `RagModel.Projection` | prefectWorkflows/dataflow/rag_model.py:80-81 | one record per retrieved document, in order, with exactly the keys `doc_id` (metadata `id`, else the position) and `source` (metadata `source`, else "unknown") |
| `RagModel.ProjectionIgnoresContent` | prefectWorkflows/dataflow/rag_model.py:79-86 | the logged projection does not depend on passage text: documents with the same metadata project identically |
| `RagModel.AssembleContext` | prefectWorkflows/dataflow/rag_model.py:97 | no documents give the empty context; otherwise the context starts with the first passage verbatim |
| `RagModel.ContextAssembly` | prefectWorkflows/dataflow/rag_model.py:97 | the context holds every passage in retrieval order with one paragraph break between neighbours, is "" for no documents, and has the passages' total length plus two characters per break |
| `RagModel.ContextWordCount` | prefectWorkflows/dataflow/rag_model.py:97-100 | the logged `retrieved_tokens` (whitespace word count of the context) equals the sum of the passages' own word counts |
| `RagModel.RetrieveRun` | prefectWorkflows/dataflow/rag_model.py:73-88 | retrieval succeeds exactly when the search does and then hands on the found documents as `context`; a search failure's message passes through; its log is one `retrieval` run, opened first and closed last |
| `RagModel.GenerateRun` | prefectWorkflows/dataflow/rag_model.py:94-116 | without `context` it fails with KeyError('context'); otherwise it succeeds exactly when the chat call on the question and the assembled context does, sets `answer` to the reply, and passes a failure's message through; its log is one `generation` run, opened first and closed last |
| `RagModel.StageRunsClosed` | prefectWorkflows/dataflow/rag_model.py:74-88 | each stage closes the nested run it opens, whether its backend succeeds or fails |
| `RagModel.RetrieveContract` | prefectWorkflows/dataflow/rag_model.py:73-88 | retrieval sets `context` to exactly the search result, keeps the question, and logs the document count and the projection; a failed search sets nothing and logs only the run's start and end |
| `RagModel.GenerateContract` | prefectWorkflows/dataflow/rag_model.py:94-116 | generation renders the prompt from the unchanged question and the assembled context, sets `answer` to the reply content unmodified, and logs the context word count (sum over passages), the context length, the reply word count and "mistral-large-latest"; a failed call sets nothing and logs no timing |
| `RagModel.GenerateNeedsContext` | prefectWorkflows/dataflow/rag_model.py:95-97 | generation on a state without `context` fails with KeyError('context') inside its run |
| `RagModel.LogRetrieval` | prefectWorkflows/dataflow/rag_model.py:80-86 | after a successful search, the retrieval time metric, the document count and the metadata projection are logged in that order, and the open runs are unchanged |
| `RagModel.Retrieve` | prefectWorkflows/dataflow/rag_model.py:73-88 | the step sequence appends exactly the retrieval trace, returns the stage's outcome and leaves the open runs as they were |
| `RagModel.LogContext` | prefectWorkflows/dataflow/rag_model.py:97-101 | the context's whitespace word count and then its length in characters are logged, and the open runs are unchanged |
| `RagModel.LogReply` | prefectWorkflows/dataflow/rag_model.py:107-109 | the generation time metric, the reply's whitespace word count and the fixed model name are logged in that order, and the open runs are unchanged |
| `RagModel.Generate` | prefectWorkflows/dataflow/rag_model.py:94-116 | the step sequence appends exactly the generation trace, returns the stage's outcome and leaves the open runs as they were |
| `RagModel.RunGraph` | prefectWorkflows/dataflow/rag_model.py:124-127 | the graph runs retrieval, merges its result, runs generation on the merged state and reads `answer`, appending both stages' traces in that order |
| `RagModel.InvokeGraph` | prefectWorkflows/dataflow/rag_model.py:124-127 | the graph's outcome is the search failure when retrieval fails, and otherwise exactly the chat model's outcome on the question and the context assembled from the retrieved documents |
| `RagModel.OpenPipeline` | prefectWorkflows/dataflow/rag_model.py:122-123 | entering the `with` block starts the top-level (not nested) `RAG_Pipeline` run and logs the query inside it |
| `RagModel.ClosePipeline` | prefectWorkflows/dataflow/rag_model.py:122-129 | leaving the `with` block logs `final_answer` only when the graph produced an answer, then ends the innermost run, on both paths |
| `RagModel.TrackPipeline` | prefectWorkflows/dataflow/rag_model.py:122-129 | the `with` block appends the pipeline prologue, both stages' traces and the epilogue, returns the graph's outcome, and leaves the tracker's open-run stack as it was |
| `RagModel.Finish` | prefectWorkflows/dataflow/rag_model.py:119-132 | returns exactly when the graph succeeded, with its answer logged as `final_answer` just before the run ends; otherwise raises the wrapped cause and logs it as `error`, the last event; the log starts with the pipeline run and the query |
| `RagModel.Pipeline` | prefectWorkflows/dataflow/rag_model.py:119-132 | the query is the second event; a returned answer is logged as `final_answer` second to last; a raised cause is logged as `error`, the last event |
| `RagModel.GenerateResponse` | prefectWorkflows/dataflow/rag_model.py:119-132 | `generateResponse` appends exactly the pipeline trace, returns the pipeline result, and leaves the tracker's open-run stack as it was on every path (the implicit run MLflow starts for `error` is not modelled; see "## Left out") |
| `RagModel.PipelineSucceeds` | prefectWorkflows/dataflow/rag_model.py:122-129 | when both backends succeed, the log is pipeline start, query, retrieval run, generation run (on exactly the retrieved documents), then `final_answer` equal to the returned reply |
| `RagModel.ReturnsOnlyOnSuccess` | prefectWorkflows/dataflow/rag_model.py:119-132 | the pipeline returns if and only if both stages succeed, and what it returns is the chat model's reply to the prompt built from the retrieved documents |
| `RagModel.RetrievalFailureAborts` | prefectWorkflows/dataflow/rag_model.py:127-132 | a failed search raises the wrapped cause, logs it as "error", opens no generation run and logs no final answer |
| `RagModel.GenerationFailureAborts` | prefectWorkflows/dataflow/rag_model.py:127-132 | a failed chat-model call raises the wrapped cause, logs "error" after both stage runs, and logs no final answer |
| `RagModel.GraphRunsClosed` | prefectWorkflows/dataflow/rag_model.py:124-127 | every run that the graph's stages open is closed again, whichever stage fails |
| `RagModel.FinishRunsClosed` | prefectWorkflows/dataflow/rag_model.py:121-132 | for any graph run whose own runs are closed: the pipeline run is opened first and closed on both paths, the query and any final answer are logged inside it, and the error is logged after it |
| `RagModel.PipelineRunsClosed` | prefectWorkflows/dataflow/rag_model.py:122-131 | every run opened is closed; the query and the final answer are logged inside the pipeline run; the error is logged after the pipeline run has closed |
| `RagModel.EmptyRetrievalIsAnswered` | prefectWorkflows/dataflow/rag_model.py:97-103 | no retrieved documents is not an error: the prompt gets an empty context, 0 words and 0 characters are logged, and the outcome is the chat model's |

## Left out

- Module bootstrap is not modelled because it is environment and I/O plumbing: `.env` loading, the API-key prompt, MLflow URI and experiment setup, `mlflow.langchain.autolog`, directory creation and the bucket download loop (`rag_model.py:20-28`, `56-71`). A loaded vector store is taken as given.
- FAISS similarity search, the HuggingFace embeddings, `init_chat_model`, `hub.pull` and the prompt template's rendering are foreign library calls. They appear only as the outcomes of the parameters `search`, `answerFor` and the constructor arguments of `Resources`.
- The timing metrics `retrieval_time` and `generation_time` are floating-point wall-clock differences. Only the fact that a metric with that key is logged is recorded.
- MLflow internals are not modelled: parameters are stored as typed `Value`s rather than strings, there are no parameter-length limits, and a run's end status (finished or failed) is not recorded. The error parameter is simply appended to the log.
- LangGraph `StateGraph` construction and compilation are not modelled. The graph is plain sequential composition with a record update (`Merge`).
- `checkModel_fairness` is not modelled: it is asynchronous and delegates to an external evaluator.
- The `__main__` block is not modelled: it only reads the query from standard input and prints the result.
- `services/frontend/app.py` is not part of this model. It is a Streamlit form that posts the query over HTTP.
- Whitespace other than ASCII (for example U+0085, U+00A0, U+2000–U+200A, U+3000) is not treated as a word separator, unlike Python's `str.split()`.
- Metadata values are integers or strings only; other Python values are not modelled.
- Cached handles are compared by value (`Handle(id)`) rather than by Python object identity.
- Thread safety of `lru_cache` is not modelled: concurrent first calls can construct more than once in Python.
- The wrapped exception keeps only the cause's string, not its type or traceback.
- `RagModel.GenerateResponse`: the tracker records the `nested` flag but gives it no effect, and it has no active run apart from its open-run stack. So it does not model two MLflow rules. First, `start_run` without `nested=True` (line 122) raises while another run is active. Second, `log_param("error", ...)` at line 131 runs with no active run, so it starts an implicit run that stays active. In the program, a later `generateResponse` call in the same process after a failed one therefore fails at line 122. The model lets that call proceed and accepts any open-run stack on entry.
- `RagModel.TrackPipeline`: accepts any open-run stack on entry, including one with an active run, which would make `start_run` at line 122 raise.
- `RagModel.PipelineRunsClosed`: "every run is closed" covers the runs the code opens explicitly. The implicit run that `log_param("error", ...)` starts after a failure stays open in the program and is not modelled.
