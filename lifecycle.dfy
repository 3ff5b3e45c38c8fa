/**
 * The task lifecycle as a whole: submission, delivery to the worker, the
 * results middleware storing the return value, status queries, and the
 * explicit expiry of markers and results, all over one state.
 */
module Lifecycle {
  import opened Runtime
  import opened Settings
  import opened Qiskit
  import opened Queue
  import opened Tasks
  import opened Routes

  /** The existence markers, the broker's queue and the stored results. */
  datatype State = State(markers: map<string, Entry>, queue: seq<Message>, results: map<string, PyResult>)

  /** The counts as the results middleware stores them: a JSON object of numbers. */
  function CountsToJson(c: Counts): (m: map<string, Json>)
    ensures m.Keys == c.Keys
    ensures forall k :: k in c ==> m[k] == JNumber(c[k])
  {
    map k | k in c :: JNumber(c[k])
  }

  /**
   * One delivery of `msg` to the worker. On success the worker deletes the
   * marker key built from the message's `taskId`, and the results middleware
   * stores the counts under the message id; on failure nothing changes.
   */
  function Process(s: State, lib: Library, cfg: Config, msg: Message): (s': State)
    ensures s'.queue == s.queue
    ensures Execute(lib, msg.qasm3Str, EffectiveShots(msg.shots, cfg)).Raised? ==> s' == s
    ensures Execute(lib, msg.qasm3Str, EffectiveShots(msg.shots, cfg)).Returned? ==>
      && s'.markers == s.markers - {SubmittedKey(msg.taskId)}
      && msg.messageId in s'.results
      && s'.results - {msg.messageId} == s.results - {msg.messageId}
      && s'.results[msg.messageId] == PyDict(CountsToJson(Execute(lib, msg.qasm3Str, EffectiveShots(msg.shots, cfg)).value))
  {
    match Execute(lib, msg.qasm3Str, EffectiveShots(msg.shots, cfg))
    case Returned(c) =>
      State(s.markers - {WorkerMarkerKey(msg.taskId)}, s.queue, s.results[msg.messageId := PyDict(CountsToJson(c))])
    case Raised(_) => s
  }

  /** The store dropping a key whose TTL has run out; a key written without `px` never expires. */
  function ExpireMarker(s: State, key: string): (s': State)
    requires key in s.markers && s.markers[key].px.Some?
    ensures key !in s'.markers && s'.markers - {key} == s.markers - {key}
    ensures s'.queue == s.queue && s'.results == s.results
  {
    s.(markers := s.markers - {key})
  }

  /**
   * The result backend dropping a result whose retention has run out; with a
   * retention of 0 (`cfg.redisResultTtl <= 0`) results are kept indefinitely.
   */
  function ExpireResult(s: State, cfg: Config, messageId: string): (s': State)
    requires ResultTtlMs(cfg.redisResultTtl) > 0
    ensures messageId !in s'.results && s'.results - {messageId} == s.results - {messageId}
    ensures s'.queue == s.queue && s'.markers == s.markers
  {
    s.(results := s.results - {messageId})
  }

  /** The worker's key has the same form as the route's marker key. */
  lemma WorkerKeyIsSubmittedKey(taskId: string)
    ensures WorkerMarkerKey(taskId) == SubmittedKey(taskId)
  {
  }

  /** An id that was never submitted, or whose marker and result are both gone, is not found. */
  lemma UnknownIdNotFound(s: State, messageId: string, decode: Bytes -> Option<Json>)
    requires SubmittedKey(messageId) !in s.markers && messageId !in s.results
    ensures Query(s.results, s.markers, messageId, NoFault, decode) == QueryStep(Error(NotFoundMessage), s.markers)
  {
  }

  /** Right after a successful submission, and before any result exists, the task is pending. */
  lemma PendingAfterSubmit(s: State, cfg: Config, lib: Library, qc: string, taskId: string, messageId: string,
                           decode: Bytes -> Option<Json>)
    requires Submit(s.markers, s.queue, cfg, lib, qc, taskId, messageId, None).response.Submitted?
    requires messageId !in s.results
    ensures var step := Submit(s.markers, s.queue, cfg, lib, qc, taskId, messageId, None);
      Query(s.results, step.markers, messageId, NoFault, decode).response == Pending(InProgressMessage)
  {
  }

  /**
   * The worker is handed the new task id while the marker is keyed on the
   * message id: when the two differ, a successful run leaves the submission's
   * marker in place.
   */
  lemma WorkerKeepsSubmitMarker(s: State, cfg: Config, lib: Library, qc: string, taskId: string, messageId: string)
    requires Submit(s.markers, s.queue, cfg, lib, qc, taskId, messageId, None).response.Submitted?
    requires taskId != messageId
    ensures var step := Submit(s.markers, s.queue, cfg, lib, qc, taskId, messageId, None);
      var after := Process(State(step.markers, step.queue, s.results), lib, cfg, step.queue[|s.queue|]);
      SubmittedKey(messageId) in after.markers
  {
    SubmittedKeyInjective(taskId, messageId);
    WorkerKeyIsSubmittedKey(taskId);
  }

  /**
   * A successful run removes the submission marker of `messageId` exactly when
   * the message's task id is `messageId` itself or there was no marker to begin with.
   */
  lemma WorkerClearsMarkerIff(s: State, lib: Library, cfg: Config, msg: Message, messageId: string)
    requires Execute(lib, msg.qasm3Str, EffectiveShots(msg.shots, cfg)).Returned?
    ensures SubmittedKey(messageId) !in Process(s, lib, cfg, msg).markers <==>
      msg.taskId == messageId || SubmittedKey(messageId) !in s.markers
  {
    SubmittedKeyInjective(msg.taskId, messageId);
  }

  /**
   * One delivery on the service's objects: the worker runs against the shared
   * store and, when it returns, the results middleware stores the counts under
   * the message id. The new store and backend are those `Process` gives.
   */
  method Deliver(store: KeyValueStore, backend: ResultBackend, lib: Library, cfg: Config, msg: Message)
    returns (out: Outcome<Counts>)
    modifies store, backend
    ensures out == Execute(lib, msg.qasm3Str, EffectiveShots(msg.shots, cfg))
    ensures var after := Process(State(old(store.entries), [], old(backend.results)), lib, cfg, msg);
      store.entries == after.markers && backend.results == after.results
  {
    out := Qasm3Task(store, lib, cfg, msg.taskId, msg.qasm3Str, msg.shots);
    if out.Returned? {
      backend.Store(msg.messageId, PyDict(CountsToJson(out.value)));
    }
  }

  /**
   * Once the worker has succeeded, a query for the message id completes with
   * the counts and removes the marker, and every later query gives the same
   * answer as long as the result is retained.
   */
  lemma CompletedAfterProcess(s: State, lib: Library, cfg: Config, msg: Message, c: Counts,
                              decode: Bytes -> Option<Json>)
    requires Execute(lib, msg.qasm3Str, EffectiveShots(msg.shots, cfg)) == Returned(c)
    ensures var after := Process(s, lib, cfg, msg);
      var first := Query(after.results, after.markers, msg.messageId, NoFault, decode);
      && first.response == Completed(CountsToJson(c))
      && SubmittedKey(msg.messageId) !in first.markers
      && Query(after.results, first.markers, msg.messageId, NoFault, decode) == first
  {
    var after := Process(s, lib, cfg, msg);
    assert after.results[msg.messageId] == PyDict(CountsToJson(c));
    QueryCompletedRepeats(after.results, after.markers, msg.messageId, decode);
  }

  /** After the completed answer removed the marker, expiry of the result makes the task not found. */
  lemma CompletedThenResultExpired(s: State, cfg: Config, messageId: string, decode: Bytes -> Option<Json>)
    requires Query(s.results, s.markers, messageId, NoFault, decode).response.Completed?
    requires ResultTtlMs(cfg.redisResultTtl) > 0
    ensures var first := Query(s.results, s.markers, messageId, NoFault, decode);
      var expired := ExpireResult(State(first.markers, s.queue, s.results), cfg, messageId);
      Query(expired.results, expired.markers, messageId, NoFault, decode).response == Error(NotFoundMessage)
  {
  }

  /**
   * A failed run stores nothing and keeps the marker, so the task stays
   * pending until the marker expires, and is then not found.
   */
  lemma FailedTaskPendingUntilExpiry(s: State, lib: Library, cfg: Config, msg: Message, decode: Bytes -> Option<Json>)
    requires Execute(lib, msg.qasm3Str, EffectiveShots(msg.shots, cfg)).Raised?
    requires SubmittedKey(msg.messageId) in s.markers && msg.messageId !in s.results
    requires s.markers[SubmittedKey(msg.messageId)].px.Some?
    ensures var after := Process(s, lib, cfg, msg);
      && Query(after.results, after.markers, msg.messageId, NoFault, decode).response == Pending(InProgressMessage)
      && var expired := ExpireMarker(after, SubmittedKey(msg.messageId));
         Query(expired.results, expired.markers, msg.messageId, NoFault, decode).response == Error(NotFoundMessage)
  {
  }

  /**
   * The whole protocol for one valid program, with distinct task and message
   * ids: pending after submission; after the worker, completed with the counts
   * although the worker left the marker in place; the completed answer removes
   * the marker and is repeated unchanged.
   */
  lemma SubmitProcessQuery(s: State, cfg: Config, lib: Library, qc: string, taskId: string, messageId: string,
                           c: Counts, decode: Bytes -> Option<Json>)
    requires Submit(s.markers, s.queue, cfg, lib, qc, taskId, messageId, None).response.Submitted?
    requires taskId != messageId && messageId !in s.results
    requires Execute(lib, Submit(s.markers, s.queue, cfg, lib, qc, taskId, messageId, None).queue[|s.queue|].qasm3Str,
                     cfg.taskDefaultShots) == Returned(c)
    ensures var step := Submit(s.markers, s.queue, cfg, lib, qc, taskId, messageId, None);
      var submitted := State(step.markers, step.queue, s.results);
      var after := Process(submitted, lib, cfg, step.queue[|s.queue|]);
      var first := Query(after.results, after.markers, messageId, NoFault, decode);
      && Query(submitted.results, submitted.markers, messageId, NoFault, decode).response == Pending(InProgressMessage)
      && SubmittedKey(messageId) in after.markers
      && first.response == Completed(CountsToJson(c))
      && SubmittedKey(messageId) !in first.markers
      && Query(after.results, first.markers, messageId, NoFault, decode) == first
  {
    var step := Submit(s.markers, s.queue, cfg, lib, qc, taskId, messageId, None);
    var submitted := State(step.markers, step.queue, s.results);
    var msg := step.queue[|s.queue|];
    PendingAfterSubmit(s, cfg, lib, qc, taskId, messageId, decode);
    WorkerKeepsSubmitMarker(s, cfg, lib, qc, taskId, messageId);
    CompletedAfterProcess(submitted, lib, cfg, msg, c, decode);
  }

  /**
   * A fresh service handling one valid program end to end: the submission is
   * accepted, a poll before the worker runs is pending, a poll after it has
   * run completes with the counts, and polling again gives the same answer.
   */
  method SubmitAndPoll(cfg: Config, lib: Library, qc: string, taskId: string, messageId: string,
                       c: Counts, decode: Bytes -> Option<Json>)
    returns (submitted: SubmitResponse, before: StatusResponse, after: StatusResponse, again: StatusResponse)
    requires !AllSpace(qc) && lib.loads(Strip(qc)).Returned?
    requires Execute(lib, lib.dumps(lib.loads(Strip(qc)).value), cfg.taskDefaultShots) == Returned(c)
    ensures submitted == Submitted(messageId, SubmittedMessage)
    ensures before == Pending(InProgressMessage)
    ensures after == Completed(CountsToJson(c))
    ensures again == after
  {
    var store := new KeyValueStore();
    var broker := new Broker();
    var backend := new ResultBackend();
    ghost var s := State(map[], [], map[]);
    SubmitSucceeds(s.markers, s.queue, cfg, lib, qc, taskId, messageId);
    PendingAfterSubmit(s, cfg, lib, qc, taskId, messageId, decode);
    submitted := SubmitTask(store, broker, cfg, lib, qc, taskId, messageId, None);
    before := TaskStatus(store, backend, messageId, NoFault, decode);
    var msg := broker.queue[0];
    var _ := Deliver(store, backend, lib, cfg, msg);
    CompletedAfterProcess(State(store.entries, [], map[]), lib, cfg, msg, c, decode);
    after := TaskStatus(store, backend, messageId, NoFault, decode);
    again := TaskStatus(store, backend, messageId, NoFault, decode);
  }
}
