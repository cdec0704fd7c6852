/** `check`: the two-stage DNS probe of one relay. Stage 1 asks for the
    domain URL over a fresh circuit; only if that does not answer 200 does
    stage 2 build another circuit and ask for the literal-IP URL. */
module Probe {
  import opened Types
  import opened Circuits

  /** The world after one `with Circuit(...)` block and whether its request
      answered 200 (or the exception entering the circuit raised). */
  datatype Staged = Staged(world: World, result: Outcome<bool>)

  /** The world after `check` and its `Result` or the exception it raised. */
  datatype Checked = Checked(world: World, result: Outcome<ProbeResult>)

  /** Ids of the circuits built by calls `lo` .. `hi - 1`. */
  function BuiltIds(o: Oracle, lo: nat, hi: nat): set<CircuitId> {
    set k | lo <= k < hi && o.build(k).Built? :: o.build(k).id
  }

  /** A retry loop builds exactly one circuit when it succeeds and none when
      it raises. */
  lemma RetriedSuccesses(w: World, o: Oracle, path: Path, budget: nat, r: Entered)
    requires Retried(w, o, path, budget, r)
    ensures BuildCount(o, |w.builds|, |r.world.builds|, true) == if r.result.Ok? then 1 else 0
  {
    AllFailedCounts(o, |w.builds|, |r.world.builds| - 1);
  }

  /** The request of a stage: the q-th request of the run goes out with the
      `Host` header, and the STREAM events it causes reach the listeners. */
  function Fetch(w: World, o: Oracle, url: string): World {
    Deliver(w.(requests := w.requests + [Request(url, HOST)]), o.streams(|w.requests|))
  }

  /** One `with Circuit(controller, path):` block of `check`: enter, one GET
      of `url`, exit. Only a status of exactly 200 counts as an answer; a
      raised request is swallowed. A `CircuitCreationError` from entering
      propagates, and then no request is made and `__exit__` does not run. */
  function Stage(w: World, o: Oracle, path: Path, url: string): Staged {
    var e := Acquire(w, o, path, CIRCUIT_RETRIES);
    match e.result
    case Err(x) => Staged(e.world, Err(x))
    case Ok(c) => Staged(Release(Fetch(e.world, o, url), c), Ok(o.http(|e.world.requests|) == Status(200)))
  }

  /** Circuit building of a stage: one to three calls, all over `path`, one
      sleep per retry; it raises exactly when all three calls failed, and
      then nothing else happened. */
  lemma StageBuilds(w: World, o: Oracle, path: Path, url: string)
    ensures var r := Stage(w, o, path, url);
      var n := |r.world.builds| - |w.builds|;
      && 1 <= n <= 3 && r.world.builds == w.builds + Repeat(path, n)
      && r.world.sleeps == w.sleeps + n - 1
      && (r.result.Ok? <==> o.build(|r.world.builds| - 1).Built?)
      && BuildCount(o, |w.builds|, |r.world.builds|, true) == (if r.result.Ok? then 1 else 0)
    ensures var r := Stage(w, o, path, url);
      r.result.Err? ==>
        && r.result.error == CircuitCreationError(path)
        && |r.world.builds| == |w.builds| + 3
        && (forall k :: |w.builds| <= k < |r.world.builds| ==> o.build(k) == BuildFailed)
        && r.world == w.(builds := r.world.builds, sleeps := r.world.sleeps)
  {
    AcquireRetries(w, o, path, CIRCUIT_RETRIES);
    var e := Acquire(w, o, path, CIRCUIT_RETRIES);
    RetriedSuccesses(w, o, path, 3, e);
    if e.result.Err? {
      assert forall k :: |w.builds| <= k < |e.world.builds| ==> o.build(k) == BuildFailed;
    } else {
      StageAfterEnter(w, o, path, url);
    }
  }

  /** The part of a stage after a successful `__enter__` touches neither the
      build log nor the sleeps; it adds the request, appends attachments and
      changes the listeners and options only through `__exit__`. */
  lemma StageAfterEnter(w: World, o: Oracle, path: Path, url: string)
    requires Acquire(w, o, path, CIRCUIT_RETRIES).result.Ok?
    ensures var e := Acquire(w, o, path, CIRCUIT_RETRIES);
      var r := Stage(w, o, path, url).world;
      var c := e.result.value;
      && r.builds == e.world.builds && r.sleeps == e.world.sleeps
      && r.requests == e.world.requests + [Request(url, HOST)]
      && r.listeners == Release(e.world, c).listeners
      && r.conf == Release(e.world, c).conf
      && |e.world.attached| <= |r.attached| && r.attached[..|e.world.attached|] == e.world.attached
  {
    var e := Acquire(w, o, path, CIRCUIT_RETRIES);
    var w1 := e.world.(requests := e.world.requests + [Request(url, HOST)]);
    DeliverSpec(w1, o.streams(|e.world.requests|));
  }

  /** The request of a stage: made iff the circuit was entered, with the
      stage's URL and the `Host` header; the stage answers iff the status
      was exactly 200. Entering and leaving resets the option. */
  lemma StageRequest(w: World, o: Oracle, path: Path, url: string)
    ensures var r := Stage(w, o, path, url);
      r.result.Ok? ==>
        && r.world.requests == w.requests + [Request(url, HOST)]
        && (r.result.value <==> o.http(|w.requests|) == Status(200))
        && r.world.conf == w.conf - {LEAVE_STREAMS_UNATTACHED}
  {
    AcquireRetries(w, o, path, CIRCUIT_RETRIES);
    var e := Acquire(w, o, path, CIRCUIT_RETRIES);
    if e.result.Ok? {
      StageAfterEnter(w, o, path, url);
      ReleaseSpec(e.world, e.result.value);
      assert Release(e.world, e.result.value).conf == w.conf - {LEAVE_STREAMS_UNATTACHED};
    }
  }

  /** A stage leaves the registered listeners as it found them. */
  lemma StageRestoresListeners(w: World, o: Oracle, path: Path, url: string)
    requires Valid(w)
    ensures var r := Stage(w, o, path, url);
      Valid(r.world) && r.world.listeners == w.listeners
  {
    EnterExitRestores(w, o, path, CIRCUIT_RETRIES);
    var e := Acquire(w, o, path, CIRCUIT_RETRIES);
    if e.result.Ok? {
      StageAfterEnter(w, o, path, url);
    }
  }

  /** With no other listener registered, the streams attached during a stage
      are exactly its request's NEW streams, all to the circuit it built. */
  lemma StageAttaches(w: World, o: Oracle, path: Path, url: string)
    requires w.listeners == []
    ensures var r := Stage(w, o, path, url);
      r.result.Ok? ==>
        && 0 < |r.world.builds| && o.build(|r.world.builds| - 1).Built?
        && r.world.attached == w.attached + NewStreams(o.streams(|w.requests|), o.build(|r.world.builds| - 1).id)
  {
    AcquireRetries(w, o, path, CIRCUIT_RETRIES);
    var e := Acquire(w, o, path, CIRCUIT_RETRIES);
    if e.result.Ok? {
      var c := e.result.value;
      var id := o.build(|e.world.builds| - 1).id;
      assert e.world.listeners == [Listener(|e.world.builds|, id)];
      var evs := o.streams(|e.world.requests|);
      var w1 := e.world.(requests := e.world.requests + [Request(url, HOST)]);
      DeliverOneListener(w1, evs);
      var w2 := Fetch(e.world, o, url);
      assert w2.attached == w.attached + NewStreams(evs, id);
      assert Stage(w, o, path, url).world == Release(w2, c);
      ReleaseSpec(w2, c);
      StageAfterEnter(w, o, path, url);
    }
  }

  /** `check(controller, path, url1, url2, headers)` with the fixed URLs:
      stage 1 over one circuit; only when it did not answer, stage 2 over a
      second, freshly built circuit. */
  function Check(w: World, o: Oracle, path: Path): Checked {
    var s1 := Stage(w, o, path, URL1);
    match s1.result
    case Err(x) => Checked(s1.world, Err(x))
    case Ok(true) => Checked(s1.world, Ok(Success))
    case Ok(false) =>
      var s2 := Stage(s1.world, o, path, URL2);
      match s2.result
      case Err(x) => Checked(s2.world, Err(x))
      case Ok(got) => Checked(s2.world, Ok(if got then Url1Failure else Url2Failure))
  }

  /** Classification: SUCCESS iff the stage-1 request was made and answered
      200; URL1_FAILURE iff it did not and the stage-2 request answered 200;
      URL2_FAILURE iff both requests were made and neither answered 200. The
      requests made are a prefix of [url1, url2], both with the Host header;
      a raised `check` made at most the stage-1 request. */
  lemma CheckClassifies(w: World, o: Oracle, path: Path)
    ensures var r := Check(w, o, path); var q := |w.requests|;
      r.result == Ok(Success) <==> |r.world.requests| > q && o.http(q) == Status(200)
    ensures var r := Check(w, o, path); var q := |w.requests|;
      r.result == Ok(Url1Failure) <==>
        |r.world.requests| == q + 2 && o.http(q) != Status(200) && o.http(q + 1) == Status(200)
    ensures var r := Check(w, o, path); var q := |w.requests|;
      r.result == Ok(Url2Failure) <==>
        |r.world.requests| == q + 2 && o.http(q) != Status(200) && o.http(q + 1) != Status(200)
    ensures var r := Check(w, o, path);
      && |w.requests| <= |r.world.requests| <= |w.requests| + 2
      && r.world.requests == w.requests + [Request(URL1, HOST), Request(URL2, HOST)][..|r.world.requests| - |w.requests|]
    ensures var r := Check(w, o, path);
      && (r.result == Ok(Success) ==> |r.world.requests| == |w.requests| + 1)
      && (r.result.Err? ==> |r.world.requests| <= |w.requests| + 1)
  {
    var s1 := Stage(w, o, path, URL1);
    var q := |w.requests|;
    var both := [Request(URL1, HOST), Request(URL2, HOST)];
    StageBuilds(w, o, path, URL1);
    StageRequest(w, o, path, URL1);
    match s1.result
    case Err(x) =>
      assert Check(w, o, path) == Checked(s1.world, Err(x));
      assert s1.world.requests == w.requests;
      assert both[..0] == [];
    case Ok(true) =>
      assert Check(w, o, path) == Checked(s1.world, Ok(Success));
      assert both[..1] == [Request(URL1, HOST)];
    case Ok(false) =>
      var s2 := Stage(s1.world, o, path, URL2);
      StageBuilds(s1.world, o, path, URL2);
      StageRequest(s1.world, o, path, URL2);
      assert o.http(q) != Status(200);
      match s2.result
      case Err(x) =>
        assert Check(w, o, path) == Checked(s2.world, Err(x));
        assert s2.world.requests == s1.world.requests;
        assert both[..1] == [Request(URL1, HOST)];
      case Ok(got) =>
        assert Check(w, o, path) == Checked(s2.world, Ok(if got then Url1Failure else Url2Failure));
        assert got <==> o.http(q + 1) == Status(200);
        assert both[..2] == both;
  }

  /** Circuits: `check` calls `new_circuit` one to six times, always over
      `path`; it builds exactly as many circuits as it makes requests, so one
      on SUCCESS and two on the other results. A `CircuitCreationError`
      propagates only after the three calls of a stage all failed. */
  lemma CheckCircuits(w: World, o: Oracle, path: Path)
    ensures var r := Check(w, o, path); var n := |r.world.builds| - |w.builds|;
      1 <= n <= 6 && r.world.builds == w.builds + Repeat(path, n)
    ensures var r := Check(w, o, path);
      BuildCount(o, |w.builds|, |r.world.builds|, true) == |r.world.requests| - |w.requests|
    ensures var r := Check(w, o, path);
      r.result.Ok? ==> BuildCount(o, |w.builds|, |r.world.builds|, true) == if r.result == Ok(Success) then 1 else 2
    ensures var r := Check(w, o, path);
      r.result.Err? ==>
        && r.result.error == CircuitCreationError(path)
        && |r.world.builds| >= |w.builds| + 3
        && forall k :: |r.world.builds| - 3 <= k < |r.world.builds| ==> o.build(k) == BuildFailed
  {
    var s1 := Stage(w, o, path, URL1);
    StageBuilds(w, o, path, URL1);
    StageRequest(w, o, path, URL1);
    match s1.result
    case Err(x) =>
      assert Check(w, o, path) == Checked(s1.world, Err(x));
    case Ok(true) =>
      assert Check(w, o, path) == Checked(s1.world, Ok(Success));
    case Ok(false) =>
      var s2 := Stage(s1.world, o, path, URL2);
      SecondStage(w, o, path);
      match s2.result
      case Err(x) =>
        assert Check(w, o, path) == Checked(s2.world, Err(x));
      case Ok(got) =>
        assert Check(w, o, path) == Checked(s2.world, Ok(if got then Url1Failure else Url2Failure));
  }

  /** When stage 1 got no answer, the two stages together made two to six
      calls over `path`, built one circuit per request made, and a raising
      stage 2 raised for `path` after its three calls all failed. */
  lemma SecondStage(w: World, o: Oracle, path: Path)
    requires Stage(w, o, path, URL1).result == Ok(false)
    ensures var s2 := Stage(Stage(w, o, path, URL1).world, o, path, URL2);
      var n := |s2.world.builds| - |w.builds|;
      && 2 <= n <= 6 && s2.world.builds == w.builds + Repeat(path, n)
      && BuildCount(o, |w.builds|, |s2.world.builds|, true) == |s2.world.requests| - |w.requests|
      && (s2.result.Ok? ==> BuildCount(o, |w.builds|, |s2.world.builds|, true) == 2)
      && (s2.result.Err? ==>
            && s2.result.error == CircuitCreationError(path)
            && |s2.world.builds| >= |w.builds| + 3
            && forall k :: |s2.world.builds| - 3 <= k < |s2.world.builds| ==> o.build(k) == BuildFailed)
  {
    var s1 := Stage(w, o, path, URL1);
    StageBuilds(w, o, path, URL1);
    StageRequest(w, o, path, URL1);
    var s2 := Stage(s1.world, o, path, URL2);
    StageBuilds(s1.world, o, path, URL2);
    StageRequest(s1.world, o, path, URL2);
    BuildCountSplit(o, |w.builds|, |s1.world.builds|, |s2.world.builds|, true);
    var n1 := |s1.world.builds| - |w.builds|;
    var n2 := |s2.world.builds| - |s1.world.builds|;
    RepeatAppend(path, n1, n2);
  }

  /** The only exception `check` lets out is the circuit error for its own
      path. */
  lemma CheckRaisesOwnPath(w: World, o: Oracle, path: Path)
    ensures var r := Check(w, o, path);
      r.result.Err? ==> r.result.error == CircuitCreationError(path)
  {
    CheckCircuits(w, o, path);
  }

  /** Cleanup: every circuit `check` enters is exited before it returns or
      raises, so the registered listeners are as before; the option is reset
      once any circuit was entered, and untouched when none was. */
  lemma CheckCleansUp(w: World, o: Oracle, path: Path)
    ensures var r := Check(w, o, path);
      Valid(w) ==> Valid(r.world) && r.world.listeners == w.listeners
    ensures var r := Check(w, o, path);
      |r.world.requests| == |w.requests| ==> r.world.conf == w.conf
    ensures var r := Check(w, o, path);
      |r.world.requests| > |w.requests| ==> r.world.conf == w.conf - {LEAVE_STREAMS_UNATTACHED}
  {
    var s1 := Stage(w, o, path, URL1);
    StageBuilds(w, o, path, URL1);
    StageRequest(w, o, path, URL1);
    if Valid(w) {
      StageRestoresListeners(w, o, path, URL1);
    }
    match s1.result
    case Err(x) =>
      assert Check(w, o, path) == Checked(s1.world, Err(x));
    case Ok(true) =>
      assert Check(w, o, path) == Checked(s1.world, Ok(Success));
    case Ok(false) =>
      var s2 := Stage(s1.world, o, path, URL2);
      StageBuilds(s1.world, o, path, URL2);
      StageRequest(s1.world, o, path, URL2);
      if Valid(w) {
        StageRestoresListeners(s1.world, o, path, URL2);
      }
      assert s1.world.conf - {LEAVE_STREAMS_UNATTACHED} == w.conf - {LEAVE_STREAMS_UNATTACHED};
      match s2.result
      case Err(x) =>
        assert Check(w, o, path) == Checked(s2.world, Err(x));
      case Ok(got) =>
        assert Check(w, o, path) == Checked(s2.world, Ok(if got then Url1Failure else Url2Failure));
  }

  /** Within one stage, every stream attached goes to the circuit that
      stage built. */
  lemma StageAttachesOwnCircuit(w: World, o: Oracle, path: Path, url: string)
    requires w.listeners == []
    ensures var r := Stage(w, o, path, url);
      |w.attached| <= |r.world.attached| && r.world.attached[..|w.attached|] == w.attached
    ensures var r := Stage(w, o, path, url);
      forall i :: |w.attached| <= i < |r.world.attached| ==>
        r.world.attached[i].circuitId in BuiltIds(o, |w.builds|, |r.world.builds|)
  {
    var r := Stage(w, o, path, url);
    StageBuilds(w, o, path, url);
    StageAttaches(w, o, path, url);
    if r.result.Ok? {
      var k := |r.world.builds| - 1;
      var evs := o.streams(|w.requests|);
      var added := NewStreams(evs, o.build(k).id);
      assert o.build(k).id in BuiltIds(o, |w.builds|, |r.world.builds|);
      forall i | |w.attached| <= i < |r.world.attached|
        ensures r.world.attached[i].circuitId == o.build(k).id
      {
        assert r.world.attached[i] == added[i - |w.attached|];
        NewStreamsExact(evs, o.build(k).id, added[i - |w.attached|]);
      }
    }
  }

  /** No stream leaks onto another path: with no other listener registered,
      every stream attached during `check` goes to a circuit that `check`
      itself built (over `path`). */
  lemma CheckAttachesOwnCircuits(w: World, o: Oracle, path: Path)
    requires w.listeners == []
    ensures var r := Check(w, o, path);
      forall i :: |w.attached| <= i < |r.world.attached| ==>
        r.world.attached[i].circuitId in BuiltIds(o, |w.builds|, |r.world.builds|)
  {
    var s1 := Stage(w, o, path, URL1);
    StageBuilds(w, o, path, URL1);
    StageAttachesOwnCircuit(w, o, path, URL1);
    StageRestoresListeners(w, o, path, URL1);
    if s1.result == Ok(false) {
      var s2 := Stage(s1.world, o, path, URL2);
      StageBuilds(s1.world, o, path, URL2);
      StageAttachesOwnCircuit(s1.world, o, path, URL2);
      var r := Check(w, o, path);
      assert r.world == s2.world;
      forall i | |w.attached| <= i < |s1.world.attached|
        ensures r.world.attached[i] == s1.world.attached[i]
      {
        assert r.world.attached[i] == r.world.attached[..|s1.world.attached|][i];
      }
      assert BuiltIds(o, |w.builds|, |s1.world.builds|) <= BuiltIds(o, |w.builds|, |s2.world.builds|);
      assert BuiltIds(o, |s1.world.builds|, |s2.world.builds|) <= BuiltIds(o, |w.builds|, |s2.world.builds|);
    } else {
      assert Check(w, o, path).world == s1.world;
    }
  }

  /** Every `new_circuit` call builds. */
  ghost predicate AlwaysBuilds(o: Oracle) {
    forall k: nat :: o.build(k).Built?
  }

  /** No `new_circuit` call builds. */
  ghost predicate NeverBuilds(o: Oracle) {
    forall k: nat :: o.build(k) == BuildFailed
  }

  /** Every request is answered 200. */
  ghost predicate AlwaysAnswers(o: Oracle) {
    forall q: nat :: o.http(q) == Status(200)
  }

  /** A relay that resolves DNS through circuits that always build passes
      at the first attempt: one circuit, one request, no sleep. */
  lemma CheckHealthy(w: World, o: Oracle, path: Path)
    requires AlwaysBuilds(o) && AlwaysAnswers(o)
    ensures var r := Check(w, o, path);
      && r.result == Ok(Success)
      && r.world.builds == w.builds + [path]
      && r.world.sleeps == w.sleeps
      && r.world.requests == w.requests + [Request(URL1, HOST)]
  {
    var s1 := Stage(w, o, path, URL1);
    StageBuilds(w, o, path, URL1);
    StageRequest(w, o, path, URL1);
    assert o.build(|w.builds|).Built?;
    assert s1.result.Ok?;
    assert o.http(|w.requests|) == Status(200);
    assert Check(w, o, path) == Checked(s1.world, Ok(Success));
  }

  /** A relay no circuit can be built to raises `CircuitCreationError` for
      its path after the three calls of stage 1, having slept twice and made
      no request. */
  lemma CheckUnbuildable(w: World, o: Oracle, path: Path)
    requires NeverBuilds(o)
    ensures var r := Check(w, o, path);
      && r.result == Err(CircuitCreationError(path))
      && r.world == w.(builds := w.builds + [path, path, path], sleeps := w.sleeps + 2)
  {
    var s1 := Stage(w, o, path, URL1);
    StageBuilds(w, o, path, URL1);
    AllFailedCounts(o, |w.builds|, |s1.world.builds|);
    assert s1.result.Err?;
    assert Repeat(path, 3) == [path, path, path];
    assert Check(w, o, path) == Checked(s1.world, Err(CircuitCreationError(path)));
  }
}
