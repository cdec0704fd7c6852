# DNS monitor for Tor exit relays — a Dafny model

`dnsmonitor.py` checks every Tor exit relay listed in a JSON file for broken
DNS resolution. For each relay it forces a two-hop circuit, with the next
relay of the list as guard and the relay itself as exit. It then asks for
`http://example.com/` over that circuit. When that does not answer 200, it
builds a second circuit and asks for the literal address
`http://93.184.216.34/`, with the same `Host: example.com` header. The
outcome is SUCCESS, URL1_FAILURE (the name failed but the address worked,
so DNS is to blame) or URL2_FAILURE (both failed). Relays that cannot even
get a circuit are collected and reported once the run is over, if there are
at least `--errors` of them. The exit status is 1 when anything was reported
as failed.

The model keeps that decision logic and replaces everything external by an
oracle fixed in advance (`Types.Oracle`):
- `build(k)`: the outcome of the k-th `new_circuit` call of the run;
- `http(q)`: the status of the q-th HTTP request, or "raised";
- `streams(q)`: the STREAM events the controller delivers while request q
  is in flight.

What the monitor does to the controller is recorded in a `Types.World`:
- the registered stream listeners and the configuration options set;
- the log of `new_circuit` paths and the log of `attach_stream` calls;
- the number of backoff sleeps and the log of requests.

The modules follow the program:
- `Types` (types.dfy): the oracle, the world, `CircuitCreationError`, `Result`.
- `Circuits` (circuit.dfy): `Circuit.__enter__`, modelled twice, once as the
  recursive function `AcquireLoop` and once as the method `Enter`, which
  transcribes the `while True` loop. Also `__exit__` (`Release`) and the
  `attach_stream` closure (`Hook`, delivered by `Notify` and `Deliver`).
- `Probe` (probe.dfy): one `with Circuit(...)` block (`Stage`) and `check`.
- `Driver` (driver.dfy): the relay loop and the tail of `main`.
  - `PathFor` builds relay `i`'s path from the next relay (cyclically) as guard and relay `i` as exit.
  - `ProbeFrom` threads the world through the `check` calls.
  - `Tally` folds the loop body's bookkeeping over the outcomes.
  - `Finish` adds the circuit-error report and the exit status.

Stage 1 requests `url1`, `http://example.com/` (lines 91 and 135), and
stage 2 requests `url2`, `http://93.184.216.34/` (lines 92 and 148), both
with the `Host` header of line 93.

## Model

| member | source | states |
|---|---|---|
| Circuits.AcquireLoopSpec | dnsmonitor.py:46-59 | With `attempts` left, the loop makes between 1 and `Budget(attempts)` `new_circuit` calls, all over the same path. Every call but the last failed. It succeeds iff the last call built. It slept once per retry. On success it added exactly one listener, bound to the new circuit, and set the option to "1". On failure it used the whole budget and raised `CircuitCreationError(path)`, with listeners and options untouched. |
| Circuits.RetriedAfterFailure | dnsmonitor.py:54-59 | A failed call, one sleep and a retry loop that ended in a given state together form a retry loop with one more call over the same path. |
| Circuits.AcquireRetries | dnsmonitor.py:45-68 | `__enter__` with `retries` satisfies the same closed form with a budget of `1 + retries` calls. A negative `retries` gives a single call. |
| Circuits.Enter | dnsmonitor.py:45-68 | The `while True` loop over a decrementing counter, followed by registering the listener and setting the option. It ends in the same world and result as the recursive `AcquireLoop`. |
| Circuits.AcquireFailsIffAllFail | dnsmonitor.py:46-59 | `new_circuit` is called at least once and at most `1 + retries` times, always with `path`. `__enter__` raises iff every one of the `1 + retries` calls failed. The error carries the exact path. |
| Circuits.BackoffSleeps | dnsmonitor.py:54-59 | On success, the sleeps equal the failed calls before it. When all calls fail, there are `retries` sleeps when `retries >= 0` and none when it is negative, so none follows the last failure. |
| Circuits.UnregisterSpec | dnsmonitor.py:72 | Removing a listener keeps exactly the other registrations: membership in both directions, and every other listener as often as before while `l` is gone entirely. |
| Circuits.ReleaseSpec | dnsmonitor.py:70-73 | `__exit__` removes only the circuit's own listener, or nothing when none was installed. It resets `__LeaveStreamsUnattached` and keeps every other option and value. The logs and the sleeps are untouched. |
| Circuits.EnterExitRestores | dnsmonitor.py:59-73 | After a successful `__enter__`, exactly one listener was appended, bound to the id the last `new_circuit` returned, and the option is "1". `__exit__` then restores the listeners exactly and leaves the option reset. A raised `__enter__` changed neither listeners nor options. |
| Circuits.NotifySpec | dnsmonitor.py:61-63 | A STREAM event in status NEW is attached once per listener, to that listener's circuit. Any other status attaches nothing. Nothing but the attachment log changes. |
| Circuits.DeliverSpec | dnsmonitor.py:61-66 | Delivering events only appends attachments. Each one goes to the circuit of a registered listener and concerns a stream announced as NEW. |
| Circuits.NewStreamsExact | dnsmonitor.py:61-63 | Both directions: the listener bound to `cid` makes an attachment iff it carries `cid` and the id of a NEW stream. |
| Circuits.DeliverOneListener | dnsmonitor.py:61-66 | With one listener registered, exactly the NEW streams are attached, in order, to its circuit. Events in other statuses leave the world unchanged. |
| Probe.RetriedSuccesses | dnsmonitor.py:46-59 | A retry loop builds exactly one circuit when it succeeds and none when it raises. |
| Probe.StageBuilds | dnsmonitor.py:130-142 | A `with Circuit(...)` block makes 1 to 3 `new_circuit` calls over `path`, sleeping once per retry. It raises `CircuitCreationError(path)` exactly when all three failed, and then made no request and changed nothing else. |
| Probe.StageAfterEnter | dnsmonitor.py:130-142 | After `__enter__`, the block adds one request and only appends to the attachment log, keeping the earlier attachments. It leaves builds and sleeps alone and changes listeners and options only through `__exit__`. |
| Probe.StageRequest | dnsmonitor.py:131-142 | An entered block makes one request with its URL and the Host header. It answers iff the status was exactly 200; a raised request counts as no answer. The option ends up reset. |
| Probe.StageRestoresListeners | dnsmonitor.py:130-142 | A block leaves the registered listeners as it found them. |
| Probe.StageAttaches | dnsmonitor.py:130-142 | With no other listener, the attachments of a block are exactly its request's NEW streams, attached to the circuit the block built. |
| Probe.StageAttachesOwnCircuit | dnsmonitor.py:130-142 | Every stream a block attaches goes to a circuit that block built. Earlier attachments are kept. |
| Probe.CheckClassifies | dnsmonitor.py:129-156 | SUCCESS iff the stage-1 request was made and answered 200. URL1_FAILURE iff it was not answered and the stage-2 request answered 200. URL2_FAILURE iff neither answered. The requests are a prefix of [url1, url2], each with the Host header. |
| Probe.CheckCircuits | dnsmonitor.py:129-156 | `check` makes 1 to 6 `new_circuit` calls over `path`. It builds one circuit per request: one on SUCCESS, two on the other results. A `CircuitCreationError` follows three failed calls. |
| Probe.SecondStage | dnsmonitor.py:129-155 | When stage 1 got no answer, the two blocks together made 2 to 6 calls over `path` and built one circuit per request. A raising stage 2 raised `CircuitCreationError(path)` after its three calls all failed. |
| Probe.CheckRaisesOwnPath | dnsmonitor.py:129-156 | The only exception `check` lets out is `CircuitCreationError` for its own path. |
| Probe.CheckCleansUp | dnsmonitor.py:130-155 | Every circuit entered is exited, so the listeners are restored. The option is reset once a circuit was entered, and untouched otherwise. |
| Probe.CheckAttachesOwnCircuits | dnsmonitor.py:129-156 | No stream leaks across relays: every stream attached during `check` goes to a circuit `check` built. |
| Probe.CheckHealthy | dnsmonitor.py:129-140 | When circuits always build and requests are always answered, the result is SUCCESS after one call, one request and no sleep. |
| Probe.CheckUnbuildable | dnsmonitor.py:129-130 | When no circuit builds, `check` raises `CircuitCreationError(path)` after exactly three calls and two sleeps, and made no request. |
| Driver.CyclicPairing | dnsmonitor.py:99-101 | The exits are the relays in input order and the guards are the relays rotated by one. The guard of relay `i` is the exit of relay `i + 1 mod n`. A single relay is paired with itself. |
| Driver.GuardsPermuteExits | dnsmonitor.py:99-101 | Each fingerprint is used as guard exactly as often as it is used as exit. |
| Driver.ExitOnceGuardOnce | dnsmonitor.py:99-101 | With distinct fingerprints, each is the exit of exactly its own path and the guard of exactly the path of the relay before it, cyclically. |
| Driver.ProbeFrom | dnsmonitor.py:99-104 | Calling `check` on each relay's `PathFor` path, one relay after another, gives exactly one outcome per relay. What each call does is stated by the ProbeFrom lemmas below. |
| Driver.ProbeFromInOrder | dnsmonitor.py:99-104 | Relays are probed in input order. Each relay's 1 to 6 calls use its own path and come after those of the earlier relays. |
| Driver.ProbeFromErrors | dnsmonitor.py:99-105 | A relay's `CircuitCreationError` carries that relay's own path. |
| Driver.ProbeFromListeners | dnsmonitor.py:99-104 | Probing all relays leaves the listeners as they were. |
| Driver.ProbeFromHealthy | dnsmonitor.py:99-104 | When circuits always build and requests are always answered, every relay passes. |
| Driver.ProbeFromUnbuildable | dnsmonitor.py:99-107 | When no circuit builds, every relay raises `CircuitCreationError`. |
| Driver.TallySpec | dnsmonitor.py:99-119 | The loop echoes one line per failed relay, plus one per passed relay when verbose. Each relay's line carries its nickname and the message for its outcome, and an "OK" line appears only when verbose. `error_status` is set iff some relay failed other than by circuit creation. `circuit_errors` is exactly the circuit-failed relays' nicknames, in input order. |
| Driver.TallyAppend | dnsmonitor.py:99-119 | Line order is kept: the lines echoed for a concatenation of relays are the first part's lines followed by the second's. |
| Driver.TallyInOrder | dnsmonitor.py:99-119 | The loop's lines equal the front-to-back reference `Echoed`: one line per echoing relay, in input order, with repeated nicknames kept apart. |
| Driver.CircuitFailuresAppend | dnsmonitor.py:105-107 | Collecting nicknames preserves input order: the failures of a concatenation are the first part's followed by the second's. |
| Driver.CircuitFailuresExact | dnsmonitor.py:105-107 | Both directions: a nickname is collected iff a relay with that nickname failed to get a circuit. There is one entry per such relay. |
| Driver.Main | dnsmonitor.py:82-126 | A whole run of `main` has exactly one outcome per relay of the input. The output and the status are stated by the Main lemmas below. |
| Driver.FinishStatus | dnsmonitor.py:108-126 | The exit status is 0 or 1. It is 1 iff some outcome failed other than by circuit creation, or the report fired. |
| Driver.MainStatus | dnsmonitor.py:108-126 | The same, for a whole run of `main`. |
| Driver.FinishOutputSize | dnsmonitor.py:109-124 | Output lines = failed relays + (passed relays, when verbose) + (circuit-failed relays, when the report fires). That is at most one loop line per relay. |
| Driver.MainOutputSize | dnsmonitor.py:109-124 | The same, for a whole run of `main`. |
| Driver.FinishReportLines | dnsmonitor.py:121-124 | When the report fires, the output ends with one such line per circuit-failed relay, in input order. |
| Driver.MainReportLines | dnsmonitor.py:121-124 | The same, for a whole run of `main`. |
| Driver.FinishOutput | dnsmonitor.py:99-124 | The output is exactly the rendered reference lines of all relays in input order, followed by the report for the circuit-failed relays in input order. |
| Driver.MainOutput | dnsmonitor.py:99-124 | The same, for a whole run of `main`. |
| Driver.MainVisitsInOrder | dnsmonitor.py:99-107 | In a whole run, relays are visited in input order, each with its own cyclic path. Circuit errors carry that path and the listeners are restored. With no relays nothing happens: no path, no output, status 0. |
| Driver.EchoedAllPassed | dnsmonitor.py:112-119 | When every relay passed, the loop's lines are `<nickname>: OK` for each relay in input order when verbose, and none otherwise. |
| Driver.EchoedAllRaised | dnsmonitor.py:104-107 | When every relay raised `CircuitCreationError`, the loop echoes nothing. |
| Driver.CircuitFailuresAllRaised | dnsmonitor.py:104-107 | When every relay raised `CircuitCreationError`, `circuit_errors` is every nickname, in input order. |
| Driver.FinishAllPassed | dnsmonitor.py:112-126 | If every relay passed, status is 0 and the output is exactly the `<nickname>: OK` lines, one per relay in input order, when verbose, and nothing otherwise. |
| Driver.FinishAllRaised | dnsmonitor.py:105-126 | If every relay raised, output and status 1 happen iff there is a relay and at least `errors` of them. The output is then the report over all nicknames in input order. |
| Driver.MainHealthy | dnsmonitor.py:99-126 | On a healthy network every relay passes and status is 0. The output is exactly `<nickname>: OK` for each relay in input order when verbose, and nothing otherwise. |
| Driver.MainUnbuildable | dnsmonitor.py:99-126 | When no circuit builds, every relay raises for its own path. The output is exactly the report over all nicknames in input order: one `<nickname>: Circuit creation failed.` line per relay, with status 1, iff there is a relay and `errors` is at most their number; otherwise nothing is echoed and status is 0. |

## Left out

- Reading the JSON file and the `click` command line (lines 76-89): the input is a given sequence of `Relay(fingerprint, nickname)` in key order, and `errors` an integer.
- Connecting and authenticating to the controller (lines 97-98): the controller is the `World` record.
- `SOCKSProxyManager`, urllib3's retries and timeouts, `HTTP_RETRIES`, `HTTP_TIMEOUT` (lines 19-20, 131-138, 144-151): each request, retries included, is one oracle outcome.
- Sleep durations and the `timeout` and `backoff` arguments of `Circuit`: only the number of sleeps is recorded.
- Environment configuration (lines 13-17): not modelled. Line 16 reads the `CONTROLLER_PORT` variable for the SOCKS port, which only matters for which local port the proxy uses.
- Asynchronous event delivery: STREAM events reach the listeners only while a request is in flight, and in the order the oracle lists them.
- Failures of controller calls other than `new_circuit` (`add_event_listener`, `set_conf`, `attach_stream` inside the callback, `remove_event_listener`, `reset_conf`) and of creating the proxy manager are not modelled. Those calls always succeed here, so the modelled `check` never raises anything but `CircuitCreationError`. `main`'s branch for other exceptions (lines 108-111) is modelled in `Step`/`Tally`, which take any outcome.
- `remove_event_listener` is modelled as removing every registration of the listener. Listeners are unique, so there is only one.
- The numeric values of `Result` (lines 29-31) are never observed and are not modelled.
- The echoes of the loop happen between `check` calls in the source. The model computes all outcomes first, then the lines. The output order is the same because the output never affects probing.
- Circuits.EnterExitRestores: requires `Valid(w)`, under which every registered listener predates the next build. This is a model invariant, not a requirement of the source. It holds for the initial `Types.Fresh` world and is preserved by `check` (`Probe.CheckCleansUp`).
- Probe.StageAttaches, Probe.StageAttachesOwnCircuit, Probe.CheckAttachesOwnCircuits: stated only when no other listener is registered, as is the case in `main`. With other listeners registered, those would also attach the streams.
- Circuits.DeliverOneListener: stated for exactly one registered listener, the situation inside a `with Circuit(...)` block.
- Driver.ExitOnceGuardOnce: requires distinct fingerprints, as the keys of a JSON object are.
