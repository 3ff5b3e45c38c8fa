/**
 * The two routes of the task service: submitting a QASM3 program, and asking
 * for a task's status. An existence marker in the key-value store tells a
 * task that is still running apart from one that was never submitted.
 */
module Routes {
  import opened Runtime
  import opened Settings
  import opened Qiskit
  import opened Queue
  import opened Tasks

  const SubmittedPrefix: string := "task_submitted:"

  /** The existence-marker key of a message id. */
  function SubmittedKey(taskId: string): (k: string)
    ensures |k| == |SubmittedPrefix| + |taskId|
    ensures k[..|SubmittedPrefix|] == SubmittedPrefix
    ensures k[|SubmittedPrefix|..] == taskId
  {
    SubmittedPrefix + taskId
  }

  /** The id a marker key belongs to; `None` for a key without the marker prefix. */
  function SubmittedIdOf(key: string): (id: Option<string>)
    ensures id.Some? <==> SubmittedPrefix <= key
  {
    if SubmittedPrefix <= key then Some(key[|SubmittedPrefix|..]) else None
  }

  lemma SubmittedKeyRoundTrip(taskId: string)
    ensures SubmittedIdOf(SubmittedKey(taskId)) == Some(taskId)
  {
  }

  /** Every key with the marker prefix is the marker key of exactly one id. */
  lemma SubmittedIdOfRoundTrip(key: string, taskId: string)
    requires SubmittedIdOf(key) == Some(taskId)
    ensures SubmittedKey(taskId) == key
  {
    assert key == key[..|SubmittedPrefix|] + key[|SubmittedPrefix|..];
  }

  /** Distinct ids never share a marker key. */
  lemma SubmittedKeyInjective(a: string, b: string)
    ensures SubmittedKey(a) == SubmittedKey(b) <==> a == b
  {
    SubmittedKeyRoundTrip(a);
    SubmittedKeyRoundTrip(b);
  }

  // ---------------------------------------------------------------- submit

  /** The marker's value, `b"1"`. */
  const MarkerValue: Bytes := [0x31]

  /** The marker's time to live: the worker's time limit times its retry count. */
  function MarkerTtlMs(cfg: Config): (ttl: int)
    ensures cfg.taskTimeLimitMs > 0 && cfg.taskMaxRetries > 0 ==> ttl >= cfg.taskTimeLimitMs
    ensures cfg.taskMaxRetries == 0 ==> ttl == 0
  {
    cfg.taskTimeLimitMs * cfg.taskMaxRetries
  }

  /** The marker TTL is computed from the very options the worker actor is registered with. */
  lemma MarkerTtlMatchesActor(cfg: Config)
    ensures MarkerTtlMs(cfg) == Actor(cfg).timeLimitMs * Actor(cfg).maxRetries
  {
  }

  lemma DefaultMarkerTtl()
    ensures MarkerTtlMs(Defaults) == 900_000
  {
  }

  const EmptyCodeDetail: string := "QASM3 code cannot be empty"
  const InvalidCodeDetail: string := "QASM3 code is not valid"
  const SubmittedMessage: string := "Task submitted successfully."

  datatype SubmitResponse =
    | Submitted(taskId: string, message: string)
    | HttpError(statusCode: int, detail: string)
    | SubmitRaised(error: Exception)

  /** A submission's response, and the markers and queue it leaves. */
  datatype SubmitStep = SubmitStep(response: SubmitResponse, markers: map<string, Entry>, queue: seq<Message>)

  /**
   * `submit_task`. `taskId` stands for `new_task_id()`, `messageId` for the id
   * the broker gives the message and `enqueueFault` for a failing enqueue.
   * Only a successful submission changes anything: it adds exactly one
   * message and writes exactly one marker, keyed on the message id.
   */
  function Submit(markers: map<string, Entry>, queue: seq<Message>, cfg: Config, lib: Library,
                  qc: string, taskId: string, messageId: string, enqueueFault: Option<Exception>): (step: SubmitStep)
    ensures step.response.Submitted? ==>
      && step.response.taskId == messageId
      && step.markers == markers[SubmittedKey(messageId) := Entry(MarkerValue, Some(MarkerTtlMs(cfg)))]
      && |step.queue| == |queue| + 1 && step.queue[..|queue|] == queue
      && step.queue[|queue|].messageId == messageId
      && step.queue[|queue|].taskId == taskId
      && step.queue[|queue|].actorName == ActorName
      && step.queue[|queue|].shots == None
    ensures !step.response.Submitted? ==> step.markers == markers && step.queue == queue
  {
    if |qc| == 0 || |Strip(qc)| == 0 then
      SubmitStep(HttpError(400, EmptyCodeDetail), markers, queue)
    else
      match lib.loads(Strip(qc))
      case Raised(_) => SubmitStep(HttpError(400, InvalidCodeDetail), markers, queue)
      case Returned(circuit) =>
        var msg := Message(messageId, ActorName, taskId, lib.dumps(circuit), None);
        if enqueueFault.Some? then
          SubmitStep(SubmitRaised(enqueueFault.value), markers, queue)
        else
          var marker := Entry(MarkerValue, Some(MarkerTtlMs(cfg)));
          SubmitStep(Submitted(messageId, SubmittedMessage), markers[SubmittedKey(messageId) := marker], queue + [msg])
  }

  /** A program that is empty or all whitespace is refused with 400, and only such a program. */
  lemma SubmitRejectsBlank(markers: map<string, Entry>, queue: seq<Message>, cfg: Config, lib: Library,
                           qc: string, taskId: string, messageId: string, enqueueFault: Option<Exception>)
    ensures Submit(markers, queue, cfg, lib, qc, taskId, messageId, enqueueFault).response == HttpError(400, EmptyCodeDetail)
      <==> AllSpace(qc)
  {
    StripEmptyIffAllSpace(qc);
  }

  /** A non-blank program the parser refuses is refused with 400, and only such a program. */
  lemma SubmitRejectsUnparsable(markers: map<string, Entry>, queue: seq<Message>, cfg: Config, lib: Library,
                                qc: string, taskId: string, messageId: string, enqueueFault: Option<Exception>)
    ensures Submit(markers, queue, cfg, lib, qc, taskId, messageId, enqueueFault).response == HttpError(400, InvalidCodeDetail)
      <==> !AllSpace(qc) && lib.loads(Strip(qc)).Raised?
  {
    StripEmptyIffAllSpace(qc);
  }

  /** A failing enqueue propagates and, coming before the marker write, leaves no marker. */
  lemma SubmitEnqueueFailure(markers: map<string, Entry>, queue: seq<Message>, cfg: Config, lib: Library,
                             qc: string, taskId: string, messageId: string, e: Exception)
    requires !AllSpace(qc) && lib.loads(Strip(qc)).Returned?
    ensures Submit(markers, queue, cfg, lib, qc, taskId, messageId, Some(e)) == SubmitStep(SubmitRaised(e), markers, queue)
  {
    StripEmptyIffAllSpace(qc);
  }

  /**
   * A valid program with a working broker is submitted: the message carries
   * the re-serialised program and the new task id, and the response names the
   * message id.
   */
  lemma SubmitSucceeds(markers: map<string, Entry>, queue: seq<Message>, cfg: Config, lib: Library,
                       qc: string, taskId: string, messageId: string)
    requires !AllSpace(qc) && lib.loads(Strip(qc)).Returned?
    ensures var step := Submit(markers, queue, cfg, lib, qc, taskId, messageId, None);
      && step.response == Submitted(messageId, SubmittedMessage)
      && step.queue[|queue|].qasm3Str == lib.dumps(lib.loads(Strip(qc)).value)
  {
    StripEmptyIffAllSpace(qc);
  }

  /** A marker is never written without its message having been enqueued. */
  lemma SubmitMarkerImpliesEnqueued(markers: map<string, Entry>, queue: seq<Message>, cfg: Config, lib: Library,
                                    qc: string, taskId: string, messageId: string, enqueueFault: Option<Exception>)
    ensures var step := Submit(markers, queue, cfg, lib, qc, taskId, messageId, enqueueFault);
      step.markers != markers ==> |step.queue| == |queue| + 1 && step.queue[|queue|].messageId == messageId
  {
  }

  /** The `submit_task` route over the shared store and broker. */
  method SubmitTask(store: KeyValueStore, broker: Broker, cfg: Config, lib: Library,
                    qc: string, taskId: string, messageId: string, enqueueFault: Option<Exception>)
    returns (response: SubmitResponse)
    modifies store, broker
    ensures SubmitStep(response, store.entries, broker.queue)
      == Submit(old(store.entries), old(broker.queue), cfg, lib, qc, taskId, messageId, enqueueFault)
  {
    if |qc| == 0 || |Strip(qc)| == 0 {
      return HttpError(400, EmptyCodeDetail);
    }
    var parsed := lib.loads(Strip(qc));
    if parsed.Raised? {
      return HttpError(400, InvalidCodeDetail);
    }
    var msg := Message(messageId, ActorName, taskId, lib.dumps(parsed.value), None);
    var err := broker.Enqueue(msg, enqueueFault);
    if err.Some? {
      return SubmitRaised(err.value);
    }
    var ttlMs := cfg.taskTimeLimitMs * cfg.taskMaxRetries;
    store.Set(SubmittedKey(msg.messageId), MarkerValue, Some(ttlMs));
    response := Submitted(msg.messageId, SubmittedMessage);
  }

  // ---------------------------------------------------------------- status

  const FormatInvalidMessage: string := "Task result format invalid."
  const NotFoundMessage: string := "Task not found."
  const InProgressMessage: string := "Task is still in progress."

  datatype StatusResponse =
    | Completed(result: map<string, Json>)
    | Pending(message: string)
    | Error(message: string)

  /**
   * The result as a dict: a dict as it is, bytes when they decode to a JSON
   * object; `None` for everything else. `decode` stands for UTF-8 decoding
   * followed by `json.loads`, `None` when either raises.
   */
  function Normalize(v: PyResult, decode: Bytes -> Option<Json>): (d: Option<map<string, Json>>)
    ensures d.Some? ==> v.PyDict? || v.PyBytes?
    ensures v.PyDict? ==> d == Some(v.entries)
    ensures v.PyBytes? && d.Some? ==> decode(v.data) == Some(JObject(d.value))
  {
    match v
    case PyDict(m) => Some(m)
    case PyBytes(b) =>
      (match decode(b)
       case Some(JObject(m)) => Some(m)
       case _ => None)
    case PyOther(_) => None
  }

  /** Bytes that decode to an object are accepted exactly as the object itself would be. */
  lemma NormalizeBytesLikeDict(b: Bytes, m: map<string, Json>, decode: Bytes -> Option<Json>)
    requires decode(b) == Some(JObject(m))
    ensures Normalize(PyBytes(b), decode) == Normalize(PyDict(m), decode) == Some(m)
  {
  }

  /** Undecodable bytes, bytes decoding to a non-object, and non-dict values are all rejected. */
  lemma NormalizeRejects(v: PyResult, decode: Bytes -> Option<Json>)
    ensures Normalize(v, decode).None? <==>
      || v.PyOther?
      || (v.PyBytes? && (decode(v.data).None? || !decode(v.data).value.JObject?))
  {
  }

  /** A status query's response and the markers it leaves. */
  datatype QueryStep = QueryStep(response: StatusResponse, markers: map<string, Entry>)

  /**
   * `task_status`. The result backend is only read; the only change to the
   * store is the deletion of the marker, and only on a completed answer.
   * `Pending` is only ever answered while the marker exists.
   */
  function Query(results: map<string, PyResult>, markers: map<string, Entry>, taskId: string,
                 fault: BackendFault, decode: Bytes -> Option<Json>): (step: QueryStep)
    ensures step.markers == if step.response.Completed? then markers - {SubmittedKey(taskId)} else markers
    ensures step.response.Pending? ==> SubmittedKey(taskId) in markers
  {
    match Lookup(results, taskId, fault)
    case Present(v) =>
      (match Normalize(v, decode)
       case Some(m) => QueryStep(Completed(m), markers - {SubmittedKey(taskId)})
       case None => QueryStep(Error(FormatInvalidMessage), markers))
    case ResultMissing =>
      QueryStep(if SubmittedKey(taskId) in markers then Pending(InProgressMessage) else Error(NotFoundMessage), markers)
    case ResultTimeout =>
      QueryStep(if SubmittedKey(taskId) in markers then Pending(InProgressMessage) else Error(NotFoundMessage), markers)
    case LookupFailed(e) => QueryStep(Error(e.message), markers)
  }

  /** Completed, with exactly the normalised mapping, when and only when a usable result is present. */
  lemma QueryCompletedIff(results: map<string, PyResult>, markers: map<string, Entry>, taskId: string,
                          fault: BackendFault, decode: Bytes -> Option<Json>, m: map<string, Json>)
    ensures Query(results, markers, taskId, fault, decode).response == Completed(m) <==>
      && fault.NoFault? && taskId in results
      && Normalize(results[taskId], decode) == Some(m)
  {
  }

  /** A present result that cannot be normalised is a format error and the marker stays. */
  lemma QueryFormatInvalid(results: map<string, PyResult>, markers: map<string, Entry>, taskId: string,
                           decode: Bytes -> Option<Json>)
    requires taskId in results && Normalize(results[taskId], decode).None?
    ensures Query(results, markers, taskId, NoFault, decode) == QueryStep(Error(FormatInvalidMessage), markers)
  {
  }

  /** With no result yet, the marker alone decides between pending and not found; nothing changes. */
  lemma QueryWithoutResult(results: map<string, PyResult>, markers: map<string, Entry>, taskId: string,
                           fault: BackendFault, decode: Bytes -> Option<Json>)
    requires fault.TimeoutFault? || (fault.NoFault? && taskId !in results)
    ensures var step := Query(results, markers, taskId, fault, decode);
      && step.markers == markers
      && (step.response == Pending(InProgressMessage) <==> SubmittedKey(taskId) in markers)
      && (step.response == Error(NotFoundMessage) <==> SubmittedKey(taskId) !in markers)
  {
  }

  /** A timed-out lookup is answered exactly as a missing result is. */
  lemma QueryTimeoutLikeMissing(results: map<string, PyResult>, markers: map<string, Entry>, taskId: string,
                                decode: Bytes -> Option<Json>)
    ensures Query(results, markers, taskId, TimeoutFault, decode) == Query(results - {taskId}, markers, taskId, NoFault, decode)
  {
  }

  /** Any other backend failure surfaces its message and leaves the marker alone. */
  lemma QueryBackendFailure(results: map<string, PyResult>, markers: map<string, Entry>, taskId: string,
                            e: Exception, decode: Bytes -> Option<Json>)
    ensures Query(results, markers, taskId, OtherFault(e), decode) == QueryStep(Error(e.message), markers)
  {
  }

  /** Asking again after a completed answer gives the same answer and changes nothing more. */
  lemma QueryCompletedRepeats(results: map<string, PyResult>, markers: map<string, Entry>, taskId: string,
                              decode: Bytes -> Option<Json>)
    requires Query(results, markers, taskId, NoFault, decode).response.Completed?
    ensures var first := Query(results, markers, taskId, NoFault, decode);
      Query(results, first.markers, taskId, NoFault, decode) == first
  {
    var first := Query(results, markers, taskId, NoFault, decode);
    assert first.markers - {SubmittedKey(taskId)} == first.markers;
  }

  /** The `task_status` route over the shared store and the result backend. */
  method TaskStatus(store: KeyValueStore, backend: ResultBackend, taskId: string,
                    fault: BackendFault, decode: Bytes -> Option<Json>)
    returns (response: StatusResponse)
    modifies store
    ensures QueryStep(response, store.entries) == Query(backend.results, old(store.entries), taskId, fault, decode)
  {
    var lookup := backend.GetResult(taskId, fault);
    match lookup {
      case Present(v) =>
        var dict: Option<map<string, Json>>;
        match v {
          case PyBytes(b) =>
            var decoded := decode(b);
            if decoded.None? {
              return Error(FormatInvalidMessage);
            }
            dict := if decoded.value.JObject? then Some(decoded.value.fields) else None;
          case PyDict(m) =>
            dict := Some(m);
          case PyOther(_) =>
            dict := None;
        }
        if dict.None? {
          return Error(FormatInvalidMessage);
        }
        store.Delete(SubmittedKey(taskId));
        response := Completed(dict.value);
      case ResultMissing =>
        var marker := store.Get(SubmittedKey(taskId));
        response := if marker.Some? then Pending(InProgressMessage) else Error(NotFoundMessage);
      case ResultTimeout =>
        var marker := store.Get(SubmittedKey(taskId));
        response := if marker.Some? then Pending(InProgressMessage) else Error(NotFoundMessage);
      case LookupFailed(e) =>
        response := Error(e.message);
    }
  }
}
