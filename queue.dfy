/**
 * The broker, the result backend and the Redis client the service shares, as
 * in-memory stand-ins, and the retention setting handed to the results
 * middleware. Failures of the real infrastructure enter as parameters.
 */
module Queue {
  import opened Runtime
  import opened Settings

  /** Retention of stored results in milliseconds; 0 means keep indefinitely. */
  function ResultTtlMs(seconds: int): (ms: int)
    ensures ms >= 0
    ensures ms == 0 <==> seconds <= 0
    ensures seconds > 0 ==> ms == seconds * 1000
  {
    if seconds > 0 then seconds * 1000 else 0
  }

  /** A positive retention converts back to the same number of whole seconds. */
  lemma ResultTtlMsWholeSeconds(seconds: int)
    requires seconds > 0
    ensures ResultTtlMs(seconds) % 1000 == 0
    ensures ResultTtlMs(seconds) / 1000 == seconds
  {
  }

  /** A longer configured retention never gives a shorter one. */
  lemma ResultTtlMsMonotonic(a: int, b: int)
    requires a <= b
    ensures ResultTtlMs(a) <= ResultTtlMs(b)
  {
  }

  /** The default retention of one hour. */
  lemma DefaultResultTtlMs()
    ensures ResultTtlMs(Defaults.redisResultTtl) == 3_600_000
  {
  }

  /** A stored key: its value and the `px` expiry it was written with, if any. */
  datatype Entry = Entry(value: Bytes, px: Option<int>)

  /** The `redis_client` key-value store, holding the existence markers. */
  class KeyValueStore {
    var entries: map<string, Entry>

    constructor ()
      ensures entries == map[]
    {
      entries := map[];
    }

    /** `SET key value [PX px]`: overwrites whatever the key held. */
    method Set(key: string, value: Bytes, px: Option<int>)
      modifies this
      ensures entries == old(entries)[key := Entry(value, px)]
    {
      entries := entries[key := Entry(value, px)];
    }

    /** `GET key`: the stored value, or `None` for an absent key. */
    method Get(key: string) returns (v: Option<Bytes>)
      ensures v.Some? <==> key in entries
      ensures v.Some? ==> v.value == entries[key].value
    {
      v := if key in entries then Some(entries[key].value) else None;
    }

    /** `DEL key`: deleting an absent key is not an error. */
    method Delete(key: string)
      modifies this
      ensures entries == old(entries) - {key}
    {
      entries := entries - {key};
    }
  }

  /** A unit of work for the worker actor; `shots` is absent when the sender passed none. */
  datatype Message = Message(
    messageId: string,
    actorName: string,
    taskId: string,
    qasm3Str: string,
    shots: Option<int>
  )

  /** The broker's queue of enqueued messages. */
  class Broker {
    var queue: seq<Message>

    constructor ()
      ensures queue == []
    {
      queue := [];
    }

    /**
     * `broker.enqueue(msg)`. `fault` is the failure the broker reports
     * (queue unreachable), if any; a failed enqueue adds nothing.
     */
    method Enqueue(msg: Message, fault: Option<Exception>) returns (err: Option<Exception>)
      modifies this
      ensures err == fault
      ensures queue == if fault.None? then old(queue) + [msg] else old(queue)
    {
      err := fault;
      if fault.None? {
        queue := queue + [msg];
      }
    }
  }

  /** A failure of the result backend itself during a lookup. */
  datatype BackendFault = NoFault | TimeoutFault | OtherFault(error: Exception)

  /** What a non-blocking `get_result` does. */
  datatype LookupOutcome =
    | Present(value: PyResult)
    | ResultMissing
    | ResultTimeout
    | LookupFailed(error: Exception)

  /** A non-blocking lookup of `messageId` in the stored results. */
  function Lookup(results: map<string, PyResult>, messageId: string, fault: BackendFault): (o: LookupOutcome)
    ensures o.Present? <==> fault.NoFault? && messageId in results
    ensures o.Present? ==> o.value == results[messageId]
    ensures o.ResultMissing? <==> fault.NoFault? && messageId !in results
  {
    match fault
    case TimeoutFault => ResultTimeout
    case OtherFault(e) => LookupFailed(e)
    case NoFault => if messageId in results then Present(results[messageId]) else ResultMissing
  }

  /** The results backend, keyed by message id. */
  class ResultBackend {
    var results: map<string, PyResult>

    constructor ()
      ensures results == map[]
    {
      results := map[];
    }

    /** `message.get_result(backend=..., block=False)`. */
    method GetResult(messageId: string, fault: BackendFault) returns (o: LookupOutcome)
      ensures o == Lookup(results, messageId, fault)
    {
      o := Lookup(results, messageId, fault);
    }

    /** What the results middleware does with an actor's return value. */
    method Store(messageId: string, value: PyResult)
      modifies this
      ensures results == old(results)[messageId := value]
    {
      results := results[messageId := value];
    }
  }
}
