# Task lifecycle of the QASM3 execution service

This project models how the service keeps track of a task and decides what to
show for it. The service runs QASM3 quantum programs asynchronously.

- **Submitting a program** (`submit_task`) first checks the program. A blank
  program is refused with 400 "QASM3 code cannot be empty". A program the
  QASM3 parser refuses gets 400 "QASM3 code is not valid". Otherwise the route
  enqueues one worker message. Only after the enqueue does it write the
  existence marker `task_submitted:<message id>`, with value `b"1"` and a TTL
  of the worker's time limit times its retry count. It answers with the
  message id.
- **Asking for a status** (`task_status`) looks the id up in the result
  backend without blocking.
  - A result that is a dict, or bytes that decode to a JSON object, gives
    `completed`, and the marker is deleted.
  - Any other result gives `error "Task result format invalid."`.
  - A missing result and a timed-out lookup are answered the same way:
    `pending` while the marker exists, `error "Task not found."` once it is
    gone.
  - Any other backend failure gives `error` with that exception's message.
- **The worker** (`qasm3_task`) parses the program, runs it on the simulator
  with `shots` (default 1024) and reads the counts. Only when all of these
  steps succeed does it delete `task_submitted:<task_id>` and return the
  counts. On failure it re-raises and leaves the store alone.
- **The retention of stored results** is given in seconds and converted to
  milliseconds, with 0 meaning keep indefinitely.

The external pieces become in-memory state or parameters (module `Queue`):

- Redis becomes a `KeyValueStore` class whose `entries` map records each
  key's value and `px`.
- The broker becomes a `Broker` class with a `queue` of messages.
- The result backend becomes a `ResultBackend` class with a `results` map.
- A failing enqueue and a failing lookup are parameters (`enqueueFault`,
  `BackendFault`).
- The ids `new_task_id()` and the broker's message id are parameters.
- The QASM3 library and the simulator are a record of functions
  (`Qiskit.Library`) whose calls return a value or raise.
- UTF-8 decoding followed by `json.loads` is a parameter `decode`.

Each route is an imperative method (`Routes.SubmitTask`, `Routes.TaskStatus`)
over these objects. The worker is the method `Tasks.Qasm3Task`. Each method is
proved equal to a function on values (`Routes.Submit`, `Routes.Query`,
`Tasks.Execute`), and the properties are lemmas about those functions.
Module `Lifecycle` puts the steps together over one `State`: submit, deliver
to the worker, status queries, and explicit expiry of markers and results.

Where the code does not do what its own comments, docstrings or response
models say, the model follows the code:

- The worker is handed the id from `new_task_id()` (app/routes.py:47, :59). The
  marker and the id returned to the client are the broker's message id
  (app/routes.py:65-66). So the worker's delete (app/tasks.py:46) targets a
  different key from the submission's marker, although the comment at
  app/tasks.py:45 says otherwise. The two ids stay separate values in the
  model. `Lifecycle.WorkerKeepsSubmitMarker` proves that when they differ, a
  successful run leaves the submission's marker in place. Only a query that
  sees the result, or TTL expiry, removes that marker.
- `broker.enqueue(msg)` runs before `redis_client.set(...)` (app/routes.py:60,
  :65), and nothing undoes the enqueue if the `SET` fails. The model keeps that
  order: a marker exists only for a message that was enqueued.
- The completed response model declares `result: Dict[str, int]`
  (app/models.py:41), but the status route accepts any dict (app/routes.py:93)
  without looking at its values. `Routes.Normalize` accepts every dict
  likewise.
- `new_task_id()` makes a 32-character hex id (app/helpers.py:6-8), but the
  route returns `msg.message_id` (app/routes.py:66), a dashed UUID as the
  example at app/models.py:32 shows. The model returns the message id, whose
  format is a parameter.

## Model

| member | source | states |
|---|---|---|
| `Runtime.IsSpace` | app/routes.py:48 | the whitespace `str.strip()` removes includes space, tab, newline and carriage return, and excludes every ASCII letter and digit |
| `Runtime.TrimStart` | app/routes.py:48 | removes exactly the leading whitespace: the result is a suffix, everything dropped is whitespace, and the result does not start with whitespace |
| `Runtime.TrimEnd` | app/routes.py:48 | removes exactly the trailing whitespace: the result is a prefix, everything dropped is whitespace, and the result does not end with whitespace |
| `Runtime.Strip` | app/routes.py:53-54 | `str.strip()` is the contiguous slice of its input left after removing only whitespace before it and only whitespace after it; the slice neither starts nor ends with whitespace |
| `Runtime.StripEmptyIffAllSpace` | app/routes.py:48 | `qc.strip()` is empty if and only if every character of `qc` is whitespace |
| `Queue.ResultTtlMs` | app/queue.py:22-23 | result retention in ms is never negative; it is 0 exactly when the seconds are ≤ 0 (keep indefinitely), and otherwise seconds × 1000 |
| `Queue.ResultTtlMsWholeSeconds` | app/queue.py:23 | a positive retention converts back to the same whole number of seconds |
| `Queue.ResultTtlMsMonotonic` | app/queue.py:23 | a longer configured retention never gives a shorter one |
| `Queue.DefaultResultTtlMs` | app/queue.py:23 | the default of 3600 s gives 3,600,000 ms |
| `Queue.KeyValueStore.Set` | tests/test_routes.py:20-22 | `SET` overwrites the key with the value and the `px` it was given; every other key is unchanged |
| `Queue.KeyValueStore.Get` | tests/test_routes.py:24-25 | `GET` returns the value exactly when the key is present |
| `Queue.KeyValueStore.Delete` | tests/test_routes.py:27-28 | `DEL` removes just that key; deleting an absent key changes nothing |
| `Queue.Broker.Enqueue` | app/routes.py:60 | a successful enqueue appends exactly the message; a failing one reports the fault and adds nothing |
| `Queue.Lookup` | app/routes.py:85 | a non-blocking lookup is `Present` with the stored value exactly when the backend is healthy and holds the id, and `ResultMissing` exactly when it is healthy and does not |
| `Queue.ResultBackend.GetResult` | app/routes.py:85 | the lookup reads the stored results and changes nothing |
| `Queue.ResultBackend.Store` | app/tasks.py:26 | the results middleware stores the actor's return value under the message id |
| `Tasks.Actor` | app/tasks.py:21-26 | the actor is registered as `execute_qasm3` with results stored, and with the configured time limit and retry count |
| `Tasks.WorkerMarkerKey` | app/tasks.py:46 | the key the worker deletes is `task_submitted:` followed by its own `task_id` argument |
| `Tasks.EffectiveShots` | app/tasks.py:29 | an explicit `shots` is used as given; without one the configured default is used |
| `Tasks.Execute` | app/tasks.py:34-42 | counts are returned only when parsing returned a circuit and running that circuit with `shots` returned a job |
| `Tasks.ExecuteReturnsIff` | app/tasks.py:34-42 | the payload returns counts if and only if parsing, running with `shots` unchanged, fetching the result and reading the counts all return; the counts are those of the last step |
| `Tasks.ExecuteParseFailure` | app/tasks.py:34 | a parse failure is re-raised unchanged |
| `Tasks.ExecuteRunFailure` | app/tasks.py:38-39 | a simulator failure is re-raised unchanged |
| `Tasks.ExecuteRaisesStepError` | app/tasks.py:34-51 | whatever the worker raises is re-raised unchanged from the first step that raised: the parse, the run of the parsed circuit, `result()` of that job, or `get_counts()` of that result |
| `Tasks.DefaultShots` | app/tasks.py:29 | without a `shots` argument the simulator runs with the configured default, 1024 out of the box |
| `Tasks.Qasm3Task` | app/tasks.py:28-51 | returns the payload's outcome; on success it deletes exactly `"task_submitted:" + task_id` for its own `task_id` argument and returns the counts; on failure the store is unchanged |
| `Routes.SubmittedKey` | app/routes.py:31-35 | the marker key is the prefix `task_submitted:` followed by the id |
| `Routes.SubmittedIdOf` | app/routes.py:31-35 | recovering the id from a key succeeds exactly for keys that carry the marker prefix |
| `Routes.SubmittedKeyRoundTrip` | app/routes.py:34-35 | recovering the id from a marker key gives back the id |
| `Routes.SubmittedIdOfRoundTrip` | app/routes.py:34-35 | every key with the prefix is the marker key of the id recovered from it |
| `Routes.SubmittedKeyInjective` | app/routes.py:34-35 | two ids share a marker key if and only if they are equal |
| `Routes.MarkerTtlMs` | app/routes.py:64 | with a positive time limit and retry count the marker lives at least one time limit; with no retries its TTL is 0 |
| `Routes.MarkerTtlMatchesActor` | app/routes.py:64 | the marker TTL is the product of the time limit and the retry count the worker actor is registered with |
| `Routes.DefaultMarkerTtl` | app/routes.py:64 | with the defaults the marker lives 900,000 ms |
| `Routes.Submit` | app/routes.py:46-66 | a successful submission returns the message id, appends exactly one message (new task id, actor `execute_qasm3`, no `shots`) and sets exactly one marker at the message id's key with `px` = time limit × retries; any other outcome changes neither the queue nor the markers |
| `Routes.SubmitRejectsBlank` | app/routes.py:48-50 | 400 "QASM3 code cannot be empty" if and only if the program is empty or all whitespace |
| `Routes.SubmitRejectsUnparsable` | app/routes.py:52-57 | 400 "QASM3 code is not valid" if and only if the program is not blank and the parser refuses its stripped text |
| `Routes.SubmitEnqueueFailure` | app/routes.py:59-65 | a failing enqueue of a valid program propagates its exception and leaves no marker and no message |
| `Routes.SubmitSucceeds` | app/routes.py:59-66 | a valid program with a working broker gets "Task submitted successfully." and the message id; the message carries the re-serialised parsed program |
| `Routes.SubmitMarkerImpliesEnqueued` | app/routes.py:60-65 | whenever the markers changed, the message with that id was enqueued |
| `Routes.SubmitTask` | app/routes.py:46-66 | the route's response, and the store and queue it leaves, are those of `Submit` |
| `Routes.Normalize` | app/routes.py:86-95 | a dict is accepted as itself; bytes are accepted only as the JSON object they decode to; nothing else is accepted |
| `Routes.NormalizeBytesLikeDict` | app/routes.py:87-89 | bytes that decode to a JSON object are accepted exactly as that object given directly would be |
| `Routes.NormalizeRejects` | app/routes.py:87-95 | a result is rejected if and only if it is neither a dict nor bytes, or it is bytes that do not decode, or that decode to something other than an object |
| `Routes.Query` | app/routes.py:76-110 | the status query only removes the marker, and only when it answers `completed`; `pending` is only answered while the marker exists |
| `Routes.QueryCompletedIff` | app/routes.py:85-99 | `completed` with mapping `m` if and only if the backend is healthy, holds a result for the id, and that result normalises to `m` |
| `Routes.QueryFormatInvalid` | app/routes.py:87-95 | a present result that cannot be normalised gives "Task result format invalid." and the marker stays |
| `Routes.QueryWithoutResult` | app/routes.py:100-107 | with the result missing or the lookup timed out, `pending` if and only if the marker exists, "Task not found." if and only if it does not; the store is unchanged |
| `Routes.QueryTimeoutLikeMissing` | app/routes.py:100-107 | a timed-out lookup is answered exactly like a missing result |
| `Routes.QueryBackendFailure` | app/routes.py:108-110 | any other backend failure gives `error` with `str(e)` and leaves the marker alone |
| `Routes.QueryCompletedRepeats` | app/routes.py:96-99 | after a `completed` answer, asking again gives the identical answer and changes nothing more |
| `Routes.TaskStatus` | app/routes.py:76-110 | the route's response, and the store it leaves, are those of `Query`; the result backend is not modified |
| `Lifecycle.CountsToJson` | app/tasks.py:48 | the stored result has exactly the keys of the counts, each mapped to its count as a JSON number |
| `Lifecycle.Process` | app/tasks.py:26-51 | a delivery leaves the queue alone; a failed run changes nothing; a successful run removes the marker key of the message's task id and stores the counts under the message id, leaving every other result as it was |
| `Lifecycle.ExpireMarker` | app/routes.py:64-65 | only a key written with a `px` can expire; it is then gone and nothing else changes |
| `Lifecycle.ExpireResult` | app/queue.py:22-23 | a result can expire only when the configured retention is positive (0 keeps results indefinitely); it is then gone and nothing else changes |
| `Lifecycle.Deliver` | app/tasks.py:26-51 | running the worker against the shared store and storing its return value in the backend gives exactly the store and results of `Process` |
| `Lifecycle.WorkerClearsMarkerIff` | app/tasks.py:45-46 | a successful run removes the submission marker of an id if and only if the message's task id is that id, or there was no such marker |
| `Lifecycle.WorkerKeyIsSubmittedKey` | app/tasks.py:46 | the key the worker deletes has the same form as the route's marker key for its `task_id` |
| `Lifecycle.UnknownIdNotFound` | app/routes.py:100-103 | an id with neither a marker nor a result is "Task not found." and nothing changes |
| `Lifecycle.PendingAfterSubmit` | app/routes.py:65 | straight after a successful submission, and before any result exists, the message id is `pending` |
| `Lifecycle.WorkerKeepsSubmitMarker` | app/tasks.py:45-46 | when the new task id and the message id differ, a successful worker run leaves the submission's marker in place |
| `Lifecycle.CompletedAfterProcess` | app/routes.py:96-99 | after the worker succeeds and its counts are stored, the message id is `completed` with those counts; the marker is removed, and a repeated query gives the identical answer |
| `Lifecycle.CompletedThenResultExpired` | app/routes.py:100-103 | once a completed answer removed the marker and, with a positive retention, the result has expired, the task is "Task not found." |
| `Lifecycle.FailedTaskPendingUntilExpiry` | app/tasks.py:49-51 | a failed worker run stores nothing and keeps the marker (written with a TTL), so the task stays `pending` until the marker expires and is then "Task not found." |
| `Lifecycle.SubmitAndPoll` | app/routes.py:46-110 | on fresh objects, a valid program is accepted, polled `pending` before the worker runs, `completed` with the counts after it has run, and identically again |
| `Lifecycle.SubmitProcessQuery` | app/routes.py:59-66 | the whole protocol with distinct ids: `pending` after submission; after the worker the marker is still there but the query answers `completed` with the counts and removes it; querying again gives the identical answer |

## Left out

- HTTP routing, FastAPI and pydantic are left out. This includes the 422 answer to a request without `qc` and the check of the response against `Dict[str, int]`. The model starts from `qc` as a string and produces response values.
- The QASM3 parser and serialiser and the Aer simulator are foreign libraries. They are the abstract `Qiskit.Library`. `dumps` and the construction of `AerSimulator()` are taken never to raise.
- UTF-8 decoding and `json.loads` form one abstract `decode`. JSON numbers are integers; floats are not modelled. `bytearray` is handled as `bytes`.
- The Dramatiq broker's internals are left out: delivery, retries, the `throws` list, enforcement of the time limit, and the connection pool. `Lifecycle.Process` stands for one delivery followed by the results middleware storing the return value. It does not remove the message from the queue.
- Redis itself is left out. Failures of `SET`, `GET` and `DEL` are not modelled; only enqueue and lookup failures are. Redis refuses a `px` that is not positive, and that rejection is not modelled either.
- Time is not modelled. TTL expiry of markers and results is an explicit step (`Lifecycle.ExpireMarker`, `Lifecycle.ExpireResult`). It is allowed only for a key stored with a `px`, or for results under a positive retention, but at any moment: the `px` value and the retention length do not decide when.
- Concurrency between workers and pollers is left out. All steps are sequential.
- `new_task_id()` is uuid4 randomness, and the broker's message ids are random too. Both are parameters, so their format and uniqueness are not modelled.
- Settings come from the environment through `str_to_int`. That wrapper is left out; the values form `Settings.Config`, and `Settings.Defaults` holds the defaults.
- Logging is left out.
- Tasks.Qasm3Task: the source returns `dict(counts)` so that a caller's changes do not reach a later call. Dafny maps are values, so this copy is implicit and aliasing cannot be stated.
