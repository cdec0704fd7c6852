/** The `Circuit` context manager: building a forced two-hop circuit with a
    bounded retry loop, installing the stream-attach listener while the
    circuit is in use, and tearing both down again. */
module Circuits {
  import opened Types

  /** A `Circuit` object: the path it forces and, once entered, the
      listener its `__enter__` registered (`None` until then). */
  datatype Circuit = Circuit(path: Path, listener: Option<Listener>)

  /** The world after `__enter__` and either the entered circuit or the
      exception `__enter__` raised. */
  datatype Entered = Entered(world: World, result: Outcome<Circuit>)

  /** How many `new_circuit` calls a loop that starts with `attempts` left
      can make: the first call is always made, and a failure is retried
      only while the decremented counter stays positive. */
  function Budget(attempts: int): nat {
    if attempts > 1 then attempts else 1
  }

  /** `n` copies of `p`. */
  function Repeat(p: Path, n: nat): (r: seq<Path>)
    ensures |r| == n
    ensures forall i :: 0 <= i < n ==> r[i] == p
  {
    if n == 0 then [] else Repeat(p, n - 1) + [p]
  }

  lemma {:induction false} RepeatAppend(p: Path, m: nat, n: nat)
    ensures Repeat(p, m) + Repeat(p, n) == Repeat(p, m + n)
  {
  }

  /** What `__enter__` does once `new_circuit` returned `id`: register a
      fresh `attach_stream` listener and set `__LeaveStreamsUnattached`. */
  function Install(w: World, path: Path, id: CircuitId): Entered {
    var l := Listener(|w.builds|, id);
    Entered(w.(listeners := w.listeners + [l],
               conf := w.conf[LEAVE_STREAMS_UNATTACHED := "1"]),
            Ok(Circuit(path, Some(l))))
  }

  /** The `while True` loop of `__enter__` with `attempts` left. Each round
      calls `new_circuit` once; a success leaves the loop, a failure
      decrements the counter and either sleeps and retries or raises
      `CircuitCreationError(path)`. */
  function AcquireLoop(w: World, o: Oracle, path: Path, attempts: int): Entered
    decreases if attempts > 0 then attempts else 0
  {
    var k := |w.builds|;
    var w1 := w.(builds := w.builds + [path]);
    match o.build(k)
    case Built(id) => Install(w1, path, id)
    case BuildFailed =>
      if attempts - 1 > 0 then AcquireLoop(w1.(sleeps := w1.sleeps + 1), o, path, attempts - 1)
      else
        Entered(w1, Err(CircuitCreationError(path)))
  }

  /** Closed form of a retry loop allowed `budget` calls that ended in `r`:
      it made `n` calls, `1 <= n <= budget`, all with `path`; every call but
      the last failed; it succeeded iff the last call built, and then added
      exactly one listener, bound to that circuit, and set the option; it
      slept once per retry; on failure it had used the whole budget, raised
      `CircuitCreationError(path)` and left listeners and options alone. */
  predicate Retried(w: World, o: Oracle, path: Path, budget: nat, r: Entered) {
    var n := |r.world.builds| - |w.builds|;
    && 1 <= n <= budget
    && r.world.builds == w.builds + Repeat(path, n)
    && (forall k :: |w.builds| <= k < |r.world.builds| - 1 ==> o.build(k) == BuildFailed)
    && (r.result.Ok? <==> o.build(|r.world.builds| - 1).Built?)
    && r.world.sleeps == w.sleeps + n - 1
    && r.world.attached == w.attached
    && r.world.requests == w.requests
    && (r.result.Ok? ==>
          var l := Listener(|r.world.builds|, o.build(|r.world.builds| - 1).id);
          && r.result.value == Circuit(path, Some(l))
          && r.world.listeners == w.listeners + [l]
          && r.world.conf == w.conf[LEAVE_STREAMS_UNATTACHED := "1"])
    && (r.result.Err? ==>
          && n == budget
          && r.result.error == CircuitCreationError(path)
          && r.world.listeners == w.listeners
          && r.world.conf == w.conf)
  }

  lemma {:induction false} AcquireLoopSpec(w: World, o: Oracle, path: Path, attempts: int)
    decreases if attempts > 0 then attempts else 0
    ensures Retried(w, o, path, Budget(attempts), AcquireLoop(w, o, path, attempts))
  {
    var w1 := w.(builds := w.builds + [path]);
    var r := AcquireLoop(w, o, path, attempts);
    assert Repeat(path, 1) == [path];
    match o.build(|w.builds|)
    case Built(id) =>
      assert r == Install(w1, path, id);
    case BuildFailed =>
      if attempts - 1 > 0 {
        var w2 := w1.(sleeps := w1.sleeps + 1);
        assert r == AcquireLoop(w2, o, path, attempts - 1);
        AcquireLoopSpec(w2, o, path, attempts - 1);
        RetriedAfterFailure(w, o, path, Budget(attempts - 1), r);
        assert Budget(attempts) == Budget(attempts - 1) + 1;
      } else {
        assert r == Entered(w1, Err(CircuitCreationError(path)));
        assert Budget(attempts) == 1;
      }
  }

  /** A failed first call followed by a sleep and a retry loop that ended
      in `r` is itself a retry loop, with one more call. */
  lemma RetriedAfterFailure(w: World, o: Oracle, path: Path, budget: nat, r: Entered)
    requires o.build(|w.builds|) == BuildFailed
    requires Retried(w.(builds := w.builds + [path], sleeps := w.sleeps + 1), o, path, budget, r)
    ensures Retried(w, o, path, budget + 1, r)
  {
    var m := |r.world.builds| - |w.builds| - 1;
    RepeatAppend(path, 1, m);
    assert Repeat(path, 1) == [path];
    assert r.world.builds == w.builds + Repeat(path, m + 1);
  }

  /** `Circuit(controller, path, retries).__enter__()`. */
  function Acquire(w: World, o: Oracle, path: Path, retries: int): Entered {
    AcquireLoop(w, o, path, 1 + retries)
  }

  /** `__enter__` is described by `Retried` with a budget of `1 + retries`
      calls (a single call when `retries` is negative). */
  lemma AcquireRetries(w: World, o: Oracle, path: Path, retries: int)
    ensures Retried(w, o, path, Budget(1 + retries), Acquire(w, o, path, retries))
  {
    AcquireLoopSpec(w, o, path, 1 + retries);
  }

  /** `__enter__` as the source writes it: a `while True` loop over a
      decrementing `attempts` counter, then the listener and the option. */
  method Enter(w: World, o: Oracle, path: Path, retries: int)
      returns (w': World, result: Outcome<Circuit>)
    ensures Entered(w', result) == Acquire(w, o, path, retries)
  {
    var attempts := 1 + retries;
    w' := w;
    var circuitId: CircuitId;
    while true
      invariant AcquireLoop(w', o, path, attempts) == Acquire(w, o, path, retries)
      decreases if attempts > 0 then attempts else 0
    {
      ghost var before := w';
      ghost var left := attempts;
      var outcome := o.build(|w'.builds|);
      w' := w'.(builds := w'.builds + [path]);
      if outcome.Built? {
        circuitId := outcome.id;
        assert AcquireLoop(before, o, path, left) == Install(w', path, circuitId);
        break;
      }
      attempts := attempts - 1;
      if attempts > 0 {
        w' := w'.(sleeps := w'.sleeps + 1);
        assert AcquireLoop(before, o, path, left) == AcquireLoop(w', o, path, attempts);
      } else {
        assert AcquireLoop(before, o, path, left) == Entered(w', Err(CircuitCreationError(path)));
        result := Err(CircuitCreationError(path));
        return;
      }
    }
    var l := Listener(|w'.builds|, circuitId);
    w' := w'.(listeners := w'.listeners + [l]);
    w' := w'.(conf := w'.conf[LEAVE_STREAMS_UNATTACHED := "1"]);
    result := Ok(Circuit(path, Some(l)));
  }

  /** Every registration of `l` removed from `ls`, the rest kept in order. */
  function Unregister(ls: seq<Listener>, l: Listener): seq<Listener>
    decreases |ls|
  {
    if ls == [] then []
    else if ls[|ls| - 1] == l then Unregister(ls[..|ls| - 1], l)
    else Unregister(ls[..|ls| - 1], l) + [ls[|ls| - 1]]
  }

  /** Removing a listener drops exactly its registrations. */
  lemma {:induction false} UnregisterSpec(ls: seq<Listener>, l: Listener)
    decreases |ls|
    ensures forall x :: x in Unregister(ls, l) <==> x in ls && x != l
    ensures |Unregister(ls, l)| <= |ls|
    ensures multiset(Unregister(ls, l)) == multiset(ls)[l := 0]
  {
    if ls != [] {
      UnregisterSpec(ls[..|ls| - 1], l);
      assert forall x :: x in ls <==> x in ls[..|ls| - 1] || x == ls[|ls| - 1];
      assert ls == ls[..|ls| - 1] + [ls[|ls| - 1]];
    }
  }

  lemma {:induction false} UnregisterAbsent(ls: seq<Listener>, l: Listener)
    requires l !in ls
    ensures Unregister(ls + [l], l) == ls
  {
    assert (ls + [l])[..|ls|] == ls;
    UnregisterUntouched(ls, l);
  }

  lemma {:induction false} UnregisterUntouched(ls: seq<Listener>, l: Listener)
    requires l !in ls
    ensures Unregister(ls, l) == ls
  {
    if ls != [] {
      UnregisterUntouched(ls[..|ls| - 1], l);
      assert ls[..|ls| - 1] + [ls[|ls| - 1]] == ls;
    }
  }

  /** `Circuit.__exit__`: remove the listener if one was installed, then
      reset `__LeaveStreamsUnattached` to its default. Nothing else in the
      world changes. */
  function Release(w: World, c: Circuit): World {
    var w1 := if c.listener.Some? then w.(listeners := Unregister(w.listeners, c.listener.value)) else w;
    w1.(conf := w1.conf - {LEAVE_STREAMS_UNATTACHED})
  }

  /** `__exit__` unregisters exactly the circuit's own listener, resets the
      option and leaves every other option, the logs and the sleeps alone. */
  lemma ReleaseSpec(w: World, c: Circuit)
    ensures var r := Release(w, c);
      forall x :: x in r.listeners <==> x in w.listeners && Some(x) != c.listener
    ensures var r := Release(w, c);
      && LEAVE_STREAMS_UNATTACHED !in r.conf
      && r.conf.Keys == w.conf.Keys - {LEAVE_STREAMS_UNATTACHED}
      && (forall key :: key in r.conf ==> r.conf[key] == w.conf[key])
    ensures var r := Release(w, c);
      r == w.(listeners := r.listeners, conf := r.conf)
  {
    if c.listener.Some? {
      UnregisterSpec(w.listeners, c.listener.value);
    }
  }

  /** Retry budget: `__enter__` calls `new_circuit` at least once and at most
      `1 + retries` times (once when `retries` is negative), always with the
      given path; it raises `CircuitCreationError(path)` exactly when every
      one of those calls failed. */
  lemma {:induction false} AcquireFailsIffAllFail(w: World, o: Oracle, path: Path, retries: int)
    ensures var r := Acquire(w, o, path, retries);
      var n := |r.world.builds| - |w.builds|;
      1 <= n <= Budget(1 + retries) && r.world.builds == w.builds + Repeat(path, n)
    ensures var r := Acquire(w, o, path, retries);
      r.result.Err? <==>
        forall k :: |w.builds| <= k < |w.builds| + Budget(1 + retries) ==> o.build(k) == BuildFailed
    ensures var r := Acquire(w, o, path, retries);
      r.result.Err? ==> r.result.error == CircuitCreationError(path)
  {
    AcquireRetries(w, o, path, retries);
    var r := Acquire(w, o, path, retries);
    var last := |r.world.builds| - 1;
    if r.result.Err? {
      forall k | |w.builds| <= k < |w.builds| + Budget(1 + retries)
        ensures o.build(k) == BuildFailed
      {
        if k == last {
          assert !o.build(last).Built?;
        }
      }
    } else {
      assert o.build(last).Built?;
      assert |w.builds| <= last < |w.builds| + Budget(1 + retries);
    }
  }

  /** Number of `new_circuit` calls among calls `lo` .. `hi - 1` that built
      a circuit (`built`) or failed (`!built`). */
  function BuildCount(o: Oracle, lo: nat, hi: nat, built: bool): nat
    decreases if lo < hi then hi - lo else 0
  {
    if lo >= hi then 0 else (if o.build(hi - 1).Built? == built then 1 else 0) + BuildCount(o, lo, hi - 1, built)
  }

  lemma {:induction false} BuildCountSplit(o: Oracle, lo: nat, mid: nat, hi: nat, built: bool)
    requires lo <= mid <= hi
    ensures BuildCount(o, lo, hi, built) == BuildCount(o, lo, mid, built) + BuildCount(o, mid, hi, built)
    decreases hi - mid
  {
    if mid < hi {
      BuildCountSplit(o, lo, mid, hi - 1, built);
    }
  }

  /** Over a run of failed calls, every call counts as a failure and none as
      a build. */
  lemma {:induction false} AllFailedCounts(o: Oracle, lo: nat, hi: nat)
    requires lo <= hi
    requires forall k :: lo <= k < hi ==> o.build(k) == BuildFailed
    ensures BuildCount(o, lo, hi, false) == hi - lo
    ensures BuildCount(o, lo, hi, true) == 0
    decreases hi - lo
  {
    if lo < hi {
      AllFailedCounts(o, lo, hi - 1);
    }
  }

  /** Backoff: a success after `f` failed calls slept exactly `f` times; when
      all `1 + retries` calls fail there are `retries` sleeps, none after the
      last failure. */
  lemma BackoffSleeps(w: World, o: Oracle, path: Path, retries: int)
    ensures var r := Acquire(w, o, path, retries);
      r.result.Ok? ==> r.world.sleeps == w.sleeps + BuildCount(o, |w.builds|, |r.world.builds|, false)
    ensures var r := Acquire(w, o, path, retries);
      r.result.Err? ==> r.world.sleeps == w.sleeps + Budget(1 + retries) - 1
    ensures var r := Acquire(w, o, path, retries);
      r.result.Err? && retries >= 0 ==> r.world.sleeps == w.sleeps + retries
  {
    AcquireRetries(w, o, path, retries);
    var r := Acquire(w, o, path, retries);
    if r.result.Ok? {
      AllFailedCounts(o, |w.builds|, |r.world.builds| - 1);
    }
  }

  /** Listener discipline: after a successful `__enter__` exactly one listener
      has been added, bound to the circuit just built, and the option is '1';
      `__exit__` of that circuit brings the listeners back to what they were
      and leaves the option reset. A failed `__enter__` registers nothing and
      never sets the option. */
  lemma EnterExitRestores(w: World, o: Oracle, path: Path, retries: int)
    requires Valid(w)
    ensures var e := Acquire(w, o, path, retries);
      e.result.Ok? ==>
        && |e.world.listeners| == |w.listeners| + 1
        && e.world.listeners[..|w.listeners|] == w.listeners
        && e.result.value.listener == Some(e.world.listeners[|w.listeners|])
        && 0 < |e.world.builds| && o.build(|e.world.builds| - 1).Built?
        && e.world.listeners[|w.listeners|].circuitId == o.build(|e.world.builds| - 1).id
        && LEAVE_STREAMS_UNATTACHED in e.world.conf
        && e.world.conf[LEAVE_STREAMS_UNATTACHED] == "1"
        && Valid(e.world)
    ensures var e := Acquire(w, o, path, retries);
      e.result.Ok? ==>
        var r := Release(e.world, e.result.value);
        r.listeners == w.listeners && r.conf == w.conf - {LEAVE_STREAMS_UNATTACHED} && Valid(r)
    ensures var e := Acquire(w, o, path, retries);
      e.result.Err? ==> e.world.listeners == w.listeners && e.world.conf == w.conf && Valid(e.world)
  {
    AcquireRetries(w, o, path, retries);
    var e := Acquire(w, o, path, retries);
    if e.result.Ok? {
      var l := e.result.value.listener.value;
      assert forall i :: 0 <= i < |w.listeners| ==> w.listeners[i] != l;
      UnregisterAbsent(w.listeners, l);
      ReleaseSpec(e.world, e.result.value);
    }
  }

  /** The `attach_stream` closure bound to `l` handling one STREAM event:
      only a stream in status NEW is attached, to `l`'s circuit. */
  function Hook(w: World, l: Listener, ev: StreamEvent): World {
    if ev.status == NEW then w.(attached := w.attached + [Attachment(ev.id, l.circuitId)]) else w
  }

  /** One STREAM event handed to each listener of `ls` in turn. */
  function Notify(w: World, ls: seq<Listener>, ev: StreamEvent): World
    decreases |ls|
  {
    if ls == [] then w else Notify(Hook(w, ls[0], ev), ls[1..], ev)
  }

  /** A NEW stream is attached once per listener, in listener order, each
      time to that listener's circuit; any other stream attaches nothing. */
  lemma {:induction false} NotifySpec(w: World, ls: seq<Listener>, ev: StreamEvent)
    decreases |ls|
    ensures var r := Notify(w, ls, ev);
      && r == w.(attached := r.attached)
      && |w.attached| <= |r.attached| && r.attached[..|w.attached|] == w.attached
      && (ev.status != NEW ==> r.attached == w.attached)
      && (ev.status == NEW ==> |r.attached| == |w.attached| + |ls|)
      && (forall i :: |w.attached| <= i < |r.attached| ==>
            r.attached[i] == Attachment(ev.id, ls[i - |w.attached|].circuitId))
  {
    if ls != [] {
      var w1 := Hook(w, ls[0], ev);
      NotifySpec(w1, ls[1..], ev);
      var r := Notify(w, ls, ev);
      assert r == Notify(w1, ls[1..], ev);
      forall i | |w.attached| <= i < |r.attached|
        ensures r.attached[i] == Attachment(ev.id, ls[i - |w.attached|].circuitId)
      {
        if i >= |w1.attached| {
          assert ls[1..][i - |w1.attached|] == ls[i - |w.attached|];
        } else {
          assert r.attached[i] == r.attached[..|w1.attached|][i];
        }
      }
    }
  }

  /** Ids of the circuits the listeners of `ls` attach to. */
  function CircuitsOf(ls: seq<Listener>): set<CircuitId> {
    set j | 0 <= j < |ls| :: ls[j].circuitId
  }

  /** Ids of the streams of `evs` announced in status NEW. */
  function NewIds(evs: seq<StreamEvent>): set<string> {
    set e | e in evs && e.status == NEW :: e.id
  }

  /** The controller delivering `evs` in order to the registered listeners. */
  function Deliver(w: World, evs: seq<StreamEvent>): World
    decreases |evs|
  {
    if evs == [] then w else Deliver(Notify(w, w.listeners, evs[0]), evs[1..])
  }

  /** Delivery only adds attachments; each goes to the circuit of a
      registered listener and concerns a stream announced as NEW. */
  lemma {:induction false} DeliverSpec(w: World, evs: seq<StreamEvent>)
    decreases |evs|
    ensures var r := Deliver(w, evs);
      && r == w.(attached := r.attached)
      && |w.attached| <= |r.attached| && r.attached[..|w.attached|] == w.attached
      && (forall i :: |w.attached| <= i < |r.attached| ==>
            r.attached[i].circuitId in CircuitsOf(w.listeners) && r.attached[i].streamId in NewIds(evs))
  {
    if evs != [] {
      var w1 := Notify(w, w.listeners, evs[0]);
      NotifySpec(w, w.listeners, evs[0]);
      DeliverSpec(w1, evs[1..]);
      var r := Deliver(w1, evs[1..]);
      assert r == Deliver(w, evs);
      assert NewIds(evs[1..]) <= NewIds(evs);
      forall i | |w.attached| <= i < |w1.attached|
        ensures r.attached[i].circuitId in CircuitsOf(w.listeners) && r.attached[i].streamId in NewIds(evs)
      {
        assert r.attached[i] == r.attached[..|w1.attached|][i];
        assert evs[0].status == NEW;
        assert w.listeners[i - |w.attached|].circuitId in CircuitsOf(w.listeners);
      }
    }
  }

  /** The attachments a single listener bound to `cid` makes for `evs`: one
      per NEW event, in order. */
  function NewStreams(evs: seq<StreamEvent>, cid: CircuitId): seq<Attachment> {
    if evs == [] then []
    else (if evs[0].status == NEW then [Attachment(evs[0].id, cid)] else []) + NewStreams(evs[1..], cid)
  }

  /** Stream filter, both directions: an attachment is made by the listener
      bound to `cid` iff it carries `cid` and the id of a NEW stream. */
  lemma {:induction false} NewStreamsExact(evs: seq<StreamEvent>, cid: CircuitId, a: Attachment)
    ensures a in NewStreams(evs, cid) <==>
      a.circuitId == cid && exists e :: e in evs && e.status == NEW && e.id == a.streamId
  {
    if evs != [] {
      NewStreamsExact(evs[1..], cid, a);
      assert forall e :: e in evs <==> e == evs[0] || e in evs[1..];
    }
  }

  /** While exactly one listener is registered, delivering events attaches
      exactly the NEW streams, in order, to that listener's circuit; streams
      in any other status leave the world unchanged. */
  lemma {:induction false} DeliverOneListener(w: World, evs: seq<StreamEvent>)
    requires |w.listeners| == 1
    decreases |evs|
    ensures Deliver(w, evs) == w.(attached := w.attached + NewStreams(evs, w.listeners[0].circuitId))
    ensures (forall e :: e in evs ==> e.status != NEW) ==> Deliver(w, evs) == w
  {
    if evs != [] {
      var w1 := Notify(w, w.listeners, evs[0]);
      NotifySpec(w, w.listeners, evs[0]);
      DeliverOneListener(w1, evs[1..]);
      var head := if evs[0].status == NEW then [Attachment(evs[0].id, w.listeners[0].circuitId)] else [];
      assert w1.attached == w.attached + head;
      assert w.attached + head + NewStreams(evs[1..], w.listeners[0].circuitId)
          == w.attached + NewStreams(evs, w.listeners[0].circuitId);
      if forall e :: e in evs ==> e.status != NEW {
        assert evs[0] in evs;
        assert forall e :: e in evs[1..] ==> e in evs;
      }
    }
  }
}
