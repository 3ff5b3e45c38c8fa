/**
 * The worker actor `execute_qasm3`: parse the program, run it on the
 * simulator, collect the counts, clear an existence marker, return the counts.
 */
module Tasks {
  import opened Runtime
  import opened Settings
  import opened Qiskit
  import opened Queue

  const ActorName: string := "execute_qasm3"

  /** The options the actor is registered with. */
  datatype ActorOptions = ActorOptions(actorName: string, timeLimitMs: int, maxRetries: int, storeResults: bool)

  function Actor(cfg: Config): (a: ActorOptions)
    ensures a.actorName == "execute_qasm3" && a.storeResults
    ensures a.timeLimitMs == cfg.taskTimeLimitMs && a.maxRetries == cfg.taskMaxRetries
  {
    ActorOptions(ActorName, cfg.taskTimeLimitMs, cfg.taskMaxRetries, true)
  }

  /** The key the worker deletes: it builds the marker key itself from its own `task_id`. */
  function WorkerMarkerKey(taskId: string): (k: string)
    ensures |k| == 15 + |taskId| && k[..15] == "task_submitted:" && k[15..] == taskId
  {
    "task_submitted:" + taskId
  }

  /** The `shots` keyword argument, defaulting to the configured default. */
  function EffectiveShots(shots: Option<int>, cfg: Config): (n: int)
    ensures shots.Some? ==> n == shots.value
    ensures shots.None? ==> n == cfg.taskDefaultShots
  {
    match shots
    case Some(n) => n
    case None => cfg.taskDefaultShots
  }

  /** The payload: the four library calls in order; the first one that raises decides. */
  function Execute(lib: Library, qasm3Str: string, shots: int): (out: Outcome<Counts>)
    ensures out.Returned? ==> lib.loads(qasm3Str).Returned? && lib.run(lib.loads(qasm3Str).value, shots).Returned?
  {
    match lib.loads(qasm3Str)
    case Raised(e) => Raised(e)
    case Returned(circuit) =>
      match lib.run(circuit, shots)
      case Raised(e) => Raised(e)
      case Returned(job) =>
        match lib.result(job)
        case Raised(e) => Raised(e)
        case Returned(res) => lib.getCounts(res)
  }

  /**
   * The payload returns counts exactly when every step returned, the
   * simulator having been given `shots` unchanged; the counts are those of the
   * last step.
   */
  lemma ExecuteReturnsIff(lib: Library, qasm3Str: string, shots: int, counts: Counts)
    ensures Execute(lib, qasm3Str, shots) == Returned(counts) <==>
      exists circuit, job, res ::
        && lib.loads(qasm3Str) == Returned(circuit)
        && lib.run(circuit, shots) == Returned(job)
        && lib.result(job) == Returned(res)
        && lib.getCounts(res) == Returned(counts)
  {
    if Execute(lib, qasm3Str, shots) == Returned(counts) {
      var circuit := lib.loads(qasm3Str).value;
      var job := lib.run(circuit, shots).value;
      var res := lib.result(job).value;
      assert lib.getCounts(res) == Returned(counts);
    }
  }

  /** A parse failure is re-raised as it is. */
  lemma ExecuteParseFailure(lib: Library, qasm3Str: string, shots: int, e: Exception)
    requires lib.loads(qasm3Str) == Raised(e)
    ensures Execute(lib, qasm3Str, shots) == Raised(e)
  {
  }

  /** A simulator failure is re-raised as it is. */
  lemma ExecuteRunFailure(lib: Library, qasm3Str: string, shots: int, circuit: Circuit, e: Exception)
    requires lib.loads(qasm3Str) == Returned(circuit)
    requires lib.run(circuit, shots) == Raised(e)
    ensures Execute(lib, qasm3Str, shots) == Raised(e)
  {
  }

  /**
   * Whatever the payload raises is re-raised unchanged from the first step
   * that raised, each step having been given what the previous one returned.
   */
  lemma ExecuteRaisesStepError(lib: Library, qasm3Str: string, shots: int, e: Exception)
    requires Execute(lib, qasm3Str, shots) == Raised(e)
    ensures var parsed := lib.loads(qasm3Str);
      || parsed == Raised(e)
      || (parsed.Returned? && lib.run(parsed.value, shots) == Raised(e))
      || (parsed.Returned? && lib.run(parsed.value, shots).Returned? &&
          lib.result(lib.run(parsed.value, shots).value) == Raised(e))
      || (parsed.Returned? && lib.run(parsed.value, shots).Returned? &&
          lib.result(lib.run(parsed.value, shots).value).Returned? &&
          lib.getCounts(lib.result(lib.run(parsed.value, shots).value).value) == Raised(e))
  {
  }

  /** Without a `shots` argument the simulator gets the configured default, 1024 out of the box. */
  lemma DefaultShots(lib: Library, qasm3Str: string)
    ensures Execute(lib, qasm3Str, EffectiveShots(None, Defaults)) == Execute(lib, qasm3Str, 1024)
  {
  }

  /**
   * `qasm3_task(task_id, qasm3_str, shots)`. On success the marker key built
   * from `taskId` is deleted and a copy of the counts returned; on failure the
   * exception is re-raised and the store is left alone.
   */
  method Qasm3Task(store: KeyValueStore, lib: Library, cfg: Config, taskId: string, qasm3Str: string, shots: Option<int>)
    returns (out: Outcome<Counts>)
    modifies store
    ensures out == Execute(lib, qasm3Str, EffectiveShots(shots, cfg))
    ensures store.entries == if out.Returned? then old(store.entries) - {WorkerMarkerKey(taskId)} else old(store.entries)
  {
    var n := EffectiveShots(shots, cfg);
    var parsed := lib.loads(qasm3Str);
    if parsed.Raised? {
      return Raised(parsed.error);
    }
    var job := lib.run(parsed.value, n);
    if job.Raised? {
      return Raised(job.error);
    }
    var res := lib.result(job.value);
    if res.Raised? {
      return Raised(res.error);
    }
    var counts := lib.getCounts(res.value);
    if counts.Raised? {
      return Raised(counts.error);
    }
    store.Delete("task_submitted:" + taskId);
    // A map is a value, so the caller's copy is independent of later calls.
    out := Returned(counts.value);
  }
}
