/** Shared vocabulary of the DNS monitor: the records exchanged with the Tor
    controller, the SOCKS proxy and the clock, seen from the monitor's side.

    Everything the monitor does not decide itself is an oracle fixed in
    advance and indexed by how many calls of that kind were made before:
    the k-th `new_circuit` call, the q-th HTTP request. The monitor's own
    effects are recorded in a `World`. */
module Types {

  datatype Option<+T> = None | Some(value: T)

  type Fingerprint = string
  type CircuitId = string

  /** The forced path handed to `new_circuit`: `[guard, exit]`. */
  type Path = seq<Fingerprint>

  /** Outcome of one `new_circuit(path, await_build=True, timeout=...)` call:
      the id of the built circuit, or any exception (timeout, refused
      extension, controller error), which the retry loop treats alike. */
  datatype BuildOutcome = Built(id: CircuitId) | BuildFailed

  /** Outcome of one `proxy.request('GET', ...)`, after urllib3's own retries:
      a response status, or any exception it raised. */
  datatype HttpOutcome = Status(code: int) | Raised

  /** A STREAM event as delivered to the registered listeners. */
  datatype StreamEvent = StreamEvent(id: string, status: string)

  /** The outside world, fixed in advance.
      - `build(k)`: outcome of the k-th `new_circuit` call of the run;
      - `http(q)`: outcome of the q-th HTTP request of the run;
      - `streams(q)`: the STREAM events the controller delivers while the
        q-th request is in flight. */
  datatype Oracle = Oracle(
    build: nat -> BuildOutcome,
    http: nat -> HttpOutcome,
    streams: nat -> seq<StreamEvent>)

  /** The `attach_stream` closure created by one `Circuit.__enter__`. It
      captures the id of the circuit just built; `serial` identifies the
      closure object (two closures are never the same object). */
  datatype Listener = Listener(serial: nat, circuitId: CircuitId)

  /** One `controller.attach_stream(stream_id, circuit_id)` call. */
  datatype Attachment = Attachment(streamId: string, circuitId: CircuitId)

  /** One HTTP request through the SOCKS proxy: the URL and its Host header. */
  datatype Request = Request(url: string, host: string)

  /** What the monitor has done to the world so far.
      - `listeners`: STREAM listeners registered on the controller, in order;
      - `conf`: configuration options explicitly set (a reset removes the key);
      - `builds`: the path of every `new_circuit` call, in order;
      - `attached`: every `attach_stream` call, in order;
      - `sleeps`: number of `time.sleep(backoff)` calls;
      - `requests`: every HTTP request, in order. */
  datatype World = World(
    listeners: seq<Listener>,
    conf: map<string, string>,
    builds: seq<Path>,
    attached: seq<Attachment>,
    sleeps: nat,
    requests: seq<Request>)

  /** Exceptions that leave `check`: the monitor's own `CircuitCreationError`
      carrying the path, or any other exception with its message. */
  datatype Exception = CircuitCreationError(path: Path) | Error(message: string)

  /** A Python call that either returns a value or raises. */
  datatype Outcome<+T> = Ok(value: T) | Err(error: Exception)

  /** The `Result` enum of the monitor. */
  datatype ProbeResult = Success | Url1Failure | Url2Failure

  /** The controller starts with no listener, no option set and no history. */
  const Fresh: World := World([], map[], [], [], 0, [])

  const NEW: string := "NEW"
  const LEAVE_STREAMS_UNATTACHED: string := "__LeaveStreamsUnattached"

  /** Default `retries` of a `Circuit`; `check` never overrides it. */
  const CIRCUIT_RETRIES: int := 2

  const URL1: string := "http://example.com/"
  const URL2: string := "http://93.184.216.34/"
  const HOST: string := "example.com"

  /** Every registered listener was created by a build already logged, so a
      listener created by the next build is distinct from all of them. */
  predicate Valid(w: World) {
    forall i :: 0 <= i < |w.listeners| ==> w.listeners[i].serial <= |w.builds|
  }
}
