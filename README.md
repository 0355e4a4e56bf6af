# JudgeEase evaluation core, modelled in Dafny

JudgeEase lets judges submit scored evaluations of contestants. The core modelled
here is the evaluation service. For one contestant it reads every evaluation from
the store and renders each as a line `Judge {judge_id} (Score: {score}): {notes}`.
It joins the lines with newlines, sums the scores and hands the text to a
pluggable summariser. It folds the summariser's outcome into the response:
a summary, a timeout message or a generic failure message. Summarisation
failure never fails the read. Around that core sit:

- the keyed record store (`EvaluationRepository`);
- the schema constraints on the four input fields;
- the Ollama provider's prompt construction and reply trimming;
- the exception hierarchy and the handlers that turn exceptions into JSON responses.

Files, one module each:

| file | module | models |
|---|---|---|
| `wrappers.dfy` | `Wrappers` | `Option` / `Result` for `None` returns and raised errors |
| `py_text.dfy` | `PyText` | Python's `str(int)`, `sep.join`, `str.strip`, and a split that inverts the join |
| `errors.dfy` | `Errors` | `CustomException`, `ClientError`, `NotFoundError`, `ServerError` |
| `handlers.dfy` | `Handlers` | the database, custom and generic exception handlers |
| `models.dfy` | `Models` | the `Evaluation` row (id, four fields, `created_at`, `updated_at`; app/models/evaluation.py:11-17) |
| `schemas.dfy` | `Schemas` | `EvaluationBase` and its constraints, `model_dump`, `EvaluationSummary` (app/schemas/evaluation.py:26-30) |
| `repository.dfy` | `Repository` | `EvaluationRepository` as a class over `map<Id, Evaluation>` |
| `llm_base.dfy` | `LlmBase` | the outcome of a `summarize` call: `Summarized(s)`, `TimedOut`, `Failed(msg)` |
| `ollama_provider.dfy` | `OllamaProvider` | `OllamaLLMProvider.summarize` |
| `service.dfy` | `Service` | `EvaluationService` |

How the model is shaped:

- **Store.** The store is a class with three fields:
  - `rows`, the table;
  - `nextId`, the next fresh id, which stands in for uuid4: ids are unique by construction;
  - `clock`, the `utcnow` reading, advanced by every create and update.

  Its methods change `rows` as the SQL session does. `GetByContestant` walks the
  key set, picking keys in an unspecified order, because the SQL query has no
  `ORDER BY`. `Update` runs the `setattr` loop over the dumped fields one at a time.
- **Service.** `GetEvaluationsForContestant` keeps the source's loop, which builds
  the lines and the running score total, and its three-way fold of the provider
  outcome. Its contract ties the result to the pure function `Aggregate`.
  A ghost out-parameter records the text handed to the provider. It is written
  beside the call, so it documents the call rather than proving one. What is
  proved about the provider is that the response depends on it only through its
  answer on the prompt, and not at all when there are no records
  (`ProviderSeesOnlyPrompt`).
- **Provider.** A provider is a function value `string -> SummarizeOutcome`.
  The Ollama model call is a function from prompt to `Invocation`, which holds the
  elapsed time and the call's result.

Two facts about the source that shape the model:

- The service returns the provider's text untrimmed (`app/services/evaluation.py:48`);
  only the Ollama provider trims it (`app/services/llm/OllamaLLMProvider.py:35`).
- The service also computes `overall_score` (`app/services/evaluation.py:58`).

## Model

| member | source | states |
|---|---|---|
| `PyText.NatText` | app/services/evaluation.py:43 | `str(n)` for n >= 0: a non-empty run of digits with no leading zero (`ParseNatText` shows they denote n) |
| `PyText.IntText` | app/services/evaluation.py:43 | `str(n)`: the digits of n, read back by `ParseNat`, with no leading zero and a leading `-` exactly for negatives |
| `PyText.ParseNatText` | app/services/evaluation.py:43 | rendering a number loses nothing: its digits read back as the number |
| `PyText.Join` | app/services/evaluation.py:45 | `sep.join(parts)`: the separator between consecutive parts only; `JoinSplit`, `SplitJoin` and `JoinEndsWithLast` state its properties |
| `PyText.JoinSplit` | app/services/evaluation.py:45 | splitting the joined text on the separator and joining again gives the text back |
| `PyText.SplitJoin` | app/services/evaluation.py:45 | splitting a `"\n".join` recovers exactly the parts, in order, when no part contains a newline |
| `PyText.JoinEndsWithLast` | app/services/evaluation.py:45 | the joined text ends with the last part: no separator trails it |
| `PyText.Strip` | app/services/llm/OllamaLLMProvider.py:35 | the input is whitespace, then the result, then whitespace, and the result neither starts nor ends with whitespace (Python's `isspace` set) |
| `PyText.StripIdempotent` | app/services/llm/OllamaLLMProvider.py:35 | stripping an already stripped text changes nothing |
| `Errors.NewCustomException` | app/exceptions/customExceptions/CustomException.py:3-7 | message and status stored as given; an omitted status is 500 |
| `Errors.NewClientError` | app/exceptions/customExceptions/client_exceptions.py:4-6 | exactly the ClientError class; an omitted status is 400, a given one is kept, the message is kept; it is a CustomException |
| `Errors.NewNotFoundError` | app/exceptions/customExceptions/client_exceptions.py:9-11 | status is always 404 (no argument can change it), message kept verbatim; it is a ClientError and a CustomException |
| `Errors.NewServerError` | app/exceptions/customExceptions/server_exceptions.py:4-6 | an omitted status is 500, a given one is kept, the message is passed through; it is a CustomException |
| `Errors.HierarchyShape` | app/exceptions/customExceptions/client_exceptions.py:4-11 | every class is a CustomException; NotFoundError is a ClientError; no other subclass relations hold |
| `Handlers.DatabaseExceptionHandler` | app/exceptions/handlers.py:7-11 | 500 with the single key `detail` set to the fixed "Internal Database Error"; the error's text is not shown |
| `Handlers.CustomExceptionHandler` | app/exceptions/handlers.py:13-17 | the exception's own status code, with the single key `detail` set to its message |
| `Handlers.GenericExceptionHandler` | app/exceptions/handlers.py:19-23 | 500 with the single key `detail` set to the fixed "An unexpected error occurred."; the exception's text is not shown |
| `Handlers.Handle` | app/exceptions/handlers.py:7-23 | the body has exactly one key, `detail`; only a CustomException sets a status other than 500 and its own message as detail; other kinds get one of the two fixed texts |
| `Handlers.DatabaseErrorHidden` | app/exceptions/handlers.py:7-11 | a database error answers 500 "Internal Database Error", whatever its text |
| `Handlers.OtherErrorHidden` | app/exceptions/handlers.py:19-23 | any other exception answers 500 "An unexpected error occurred.", whatever its text |
| `Handlers.NotFoundResponse` | app/exceptions/handlers.py:13-17 | a NotFoundError answers 404 with its message as the detail |
| `Schemas.Validate` | app/schemas/evaluation.py:5-9 | accepted unchanged iff both ids and the notes are non-empty and 0 <= score <= 100; otherwise every offending field is reported, once each |
| `Schemas.ModelDump` | app/schemas/evaluation.py:11-15 | a Put adds nothing to the base, so its dump sets all four fields |
| `Repository.ApplyFieldsFrame` | app/repositories/evaluation_repo.py:34-36 | the setattr loop changes only the fields it is given: id, timestamps and unmentioned fields are kept, and each mentioned field holds the value of the dump's last entry for it |
| `Repository.LastWriteWins` | app/repositories/evaluation_repo.py:34-36 | every entry of the dump that no later entry overrides leaves its value in its field: later writes win and no write is lost |
| `Repository.ApplyPut` | app/repositories/evaluation_repo.py:34-36 | applying a Put's dump overwrites all four fields with the Put's values and keeps id and timestamps |
| `Repository.ListingsArePermutations` | app/repositories/evaluation_repo.py:19-22 | no order is promised, but any two listings of one contestant are permutations of each other |
| `Repository.EvaluationRepository.Create` | app/repositories/evaluation_repo.py:12-17 | adds exactly one row with the input's four fields under an id not already stored; both timestamps equal the insertion time; the store invariant is kept |
| `Repository.EvaluationRepository.GetByContestant` | app/repositories/evaluation_repo.py:19-22 | returns exactly the stored records with that contestant id, each once, in some order |
| `Repository.EvaluationRepository.Get` | app/repositories/evaluation_repo.py:24-27 | the record stored under the id, or `None` exactly when there is none |
| `Repository.EvaluationRepository.Update` | app/repositories/evaluation_repo.py:29-39 | absent id: `None`, store unchanged; present id: the dumped fields written in order, id and `created_at` kept, `updated_at` strictly later, no other row changed, the new row returned |
| `Repository.EvaluationRepository.Delete` | app/repositories/evaluation_repo.py:41-47 | returns whether the id was present; afterwards the id is gone and no other row changed |
| `Repository.CreateThenGet` | app/repositories/evaluation_repo.py:12-27 | get on the id that create returned yields a record with the input's four fields |
| `OllamaProvider.BuildPrompt` | app/services/llm/OllamaLLMProvider.py:28-32 | the prompt is the fixed instruction and a blank line, which do not depend on the input, followed by the input unmodified |
| `OllamaProvider.BuildPromptInjective` | app/services/llm/OllamaLLMProvider.py:28-32 | the input can be read back from the prompt: different inputs give different prompts |
| `OllamaProvider.Summarize` | app/services/llm/OllamaLLMProvider.py:27-35 | a call past the 10-second budget, or one raising a timeout, is a timeout; a summary comes only from a reply within budget and is that reply with surrounding whitespace removed |
| `OllamaProvider.AsProvider` | app/services/llm/OllamaLLMProvider.py:27-35 | the provider the service is handed: every summary it gives is stripped, and it times out exactly when the model call runs past 10 seconds or raises a timeout |
| `OllamaProvider.SummaryTrimIdempotent` | app/services/llm/OllamaLLMProvider.py:35 | trimming the returned summary again changes nothing |
| `Service.ValidateAndReturnData` | app/services/evaluation.py:19-23 | fails exactly when the value is falsy (`None` or `False`), with a 404 NotFoundError "Evaluation {id} not found"; otherwise returns the value unchanged |
| `Service.NotFoundIs404` | app/services/evaluation.py:20-23 | through the custom handler, a falsy store result is a 404 response naming the id |
| `Service.RenderLine` | app/services/evaluation.py:43 | the f-string `Judge {judge_id} (Score: {score}): {notes}`, the score written by `IntText`; the line ends with the notes |
| `Service.RenderedLines` | app/services/evaluation.py:41-43 | one line per record, the i-th line rendering the i-th record |
| `Service.RenderAll` | app/services/evaluation.py:41-44 | the loop leaves exactly the rendered lines, in store order, and the sum of all scores |
| `Service.Prompt` | app/services/evaluation.py:45 | the rendered lines joined by newlines; `PromptLines` and `PromptEndsWithLastNotes` state its shape |
| `Service.SumScores` | app/services/evaluation.py:37-44 | the running total, starting at 0 and adding each score in store order; `ScoreTotalBounds` bounds it |
| `Service.Aggregate` | app/services/evaluation.py:35-59 | evaluations returned as given; no records: summary, error and score all unset; otherwise exactly one of summary and error set, an error being one of the two fixed texts, and the score tally present and equal to the sum of the scores and the number of records |
| `Service.OutcomeFolding` | app/services/evaluation.py:47-52 | a summary is passed through untrimmed with no error; a timeout gives "LLM generation timed out"; any other failure gives "LLM generation failed" |
| `Service.ProviderSeesOnlyPrompt` | app/services/evaluation.py:40-48 | the response depends on the provider only through its answer on the prompt, and not at all when there are no records |
| `Service.FailureTextHidden` | app/services/evaluation.py:51-52 | the failure's own text never reaches the response |
| `Service.PromptLines` | app/services/evaluation.py:41-45 | with no newline inside judge ids or notes, the prompt splits into exactly the rendered lines, in store order |
| `Service.PromptEndsWithLastNotes` | app/services/evaluation.py:45 | the prompt ends with the last record's notes: no trailing newline |
| `Service.ScoreTotalBounds` | app/services/evaluation.py:44 | for records that meet the schema, 0 <= total <= 100 x count |
| `Service.OllamaSummaryStripped` | app/services/evaluation.py:47-48 | with the Ollama provider, a summary never starts or ends with whitespace |
| `Service.GetEvaluationsOrRaise` | app/services/evaluation.py:33 | a failing store read propagates unchanged and the provider is not consulted; a successful read returns its records |
| `Service.StoreFailureWins` | tests/test_api_failures.py:64-74 | a database failure during the read answers 500 "Internal Database Error", whatever the provider would do |
| `Service.MockSummaryScenario` | tests/test_api.py:18-30 | two records and a provider answering "Mock Summary": two records and that summary come back |
| `Service.FailingProviderScenario` | tests/test_api_failures.py:47-62 | one record and a raising provider: the record, no summary, error "LLM generation failed" |
| `Service.OverallScoreAsWritten` | app/services/evaluation.py:58 | as written, the float average fits the `int` field only when the count divides the total; otherwise validation raises |
| `Service.FractionalAverageFailsRead` | app/schemas/evaluation.py:30 | scores 80 and 91: as written the read answers 500, while the model's score tally (171, 2) is present |
| `Service.EvaluationService.constructor` | app/services/evaluation.py:16-17 | the service works on the given store |
| `Service.EvaluationService.CreateEvaluation` | app/services/evaluation.py:25-26 | forwarded to the store: one new row with the input's fields under a fresh id |
| `Service.EvaluationService.GetEvaluation` | app/services/evaluation.py:28-30 | the stored record when present, NotFound "Evaluation {id} not found" otherwise |
| `Service.EvaluationService.GetEvaluationsForContestant` | app/services/evaluation.py:32-59 | lists exactly the contestant's stored records; the response equals `Aggregate` of them; the ghost record of the provider's argument, written beside the call, is the prompt when there are records and empty otherwise |
| `Service.EvaluationService.UpdateEvaluation` | app/services/evaluation.py:61-63 | absent id: NotFound, store unchanged; present id: the four fields overwritten, id and `created_at` kept, `updated_at` later, no other row changed |
| `Service.EvaluationService.DeleteEvaluation` | app/services/evaluation.py:65-67 | present id: `True` and the row is gone; absent id: NotFound and nothing changes |
| `Service.DeleteThenUpdate` | tests/test_api.py:45-58 | deleting a record succeeds, and a later put to its id answers 404 |

## Left out

- Async plumbing is not modelled: `async`/`await`, `asyncio.to_thread` and `asyncio.wait_for` are concurrency. A provider call is a value of the outcome datatype, and the Ollama call is a function from prompt to elapsed time and result.
- `ChatOllama`, its construction and the `temperature` float are a foreign library; the model call is a parameter.
- SQLAlchemy sessions (`add`, `commit`, `refresh`, `execute`) are foreign. They are replaced by the `rows` map.
- Random uuid4 ids are replaced by a counter, which is fresh by construction. The text of an id in the not-found message is its decimal form, not the 36-character uuid form.
- `datetime.utcnow` is replaced by a counter advanced on every create and update. The two column defaults are taken as one reading, so `created_at == updated_at` at insertion; SQLAlchemy calls `utcnow` separately for each column.
- `Repository.EvaluationRepository.Update` always refreshes `updated_at`. SQLAlchemy emits no UPDATE, and so runs no `onupdate`, when every written value equals the stored one; the model does not capture that case.
- The float division behind `overall_score` is not modelled. The response carries the exact total and count (`ScoreTally`), and it is proved to be unset exactly when there are no records and otherwise to equal the sum of the scores and the count. See Findings for what the float does to the `int` field.
- The `None` defaults of `EvaluationSummary` are not modelled separately: the service always passes all four fields.
- Handler priority is not modelled: each raised exception is exactly one of database error, CustomException or other. The web framework picks a handler by the exception's class hierarchy, and no class in this system derives from both SQLAlchemyError and CustomException.
- `TimeoutError` from `wait_for` is taken to be the builtin `TimeoutError` (Python 3.11 and later). On older versions `asyncio.TimeoutError` is a different class and would be reported as a generic failure.
- A call whose elapsed time is exactly the 10-second budget counts as within budget; the real race at that boundary is not modelled.
- Logging is not modelled; the service's logger is never used on these paths.
- `app/services/llm/openai_client.py` is a network client; its only local check, a missing-key `ValueError`, happens before any request.
- `app/services/llm/manager.py` (provider selection from settings) is not part of this model.
- `app/services/llm/base.py` is only the abstract `summarize` signature; `LlmBase.Provider` stands for it.
- Routing, dependency injection, configuration and the generic HTTP provider are not part of this model.
- Request validation errors (422) raised by the web framework before the service runs are not modelled.
- Tests that expect the raw exception text in `summary_error`, or a provider owned by the service, contradict the current code. The model follows `app/services/evaluation.py:49-52`.

## Findings

| source | as written | input that shows it | evidently intended | confidence | as-written member | corrected member |
|---|---|---|---|---|---|---|
| app/services/evaluation.py:58 | `overall_score` is the float `sum / count`, but `EvaluationSummary.overall_score` is declared as an int or None (app/schemas/evaluation.py:30); validation rejects a float with a fractional part, so the summary cannot be built and the read answers 500 | two valid evaluations with scores 80 and 91 (average 85.5) | the read returns the evaluations with the average score, as it does when the count divides the total | medium, not executed | `Service.OverallScoreAsWritten` | `Service.Aggregate` |
