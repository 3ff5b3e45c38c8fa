/**
 * The quantum-circuit library as seen by the task service: opaque handles for
 * what it hands back, and one record of the calls the service makes into it.
 * Each call either returns a value or raises.
 */
module Qiskit {
  import opened Runtime

  datatype Circuit = Circuit(handle: nat)
  datatype Job = Job(handle: nat)
  datatype SimResult = SimResult(handle: nat)

  /** Measurement outcome counts, as `get_counts()` returns them. */
  type Counts = map<string, int>

  datatype Library = Library(
    loads: string -> Outcome<Circuit>,          // qasm3.loads
    dumps: Circuit -> string,                   // qasm3.dumps
    run: (Circuit, int) -> Outcome<Job>,        // AerSimulator().run(circuit, shots=...)
    result: Job -> Outcome<SimResult>,          // job.result()
    getCounts: SimResult -> Outcome<Counts>     // result.get_counts()
  )
}
