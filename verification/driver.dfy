/** The relay loop of `main`: pair every exit with the next relay in the
    input's cyclic order as guard, probe each relay in input order, echo a
    line per problem, report circuit-creation failures past a threshold and
    exit with status 1 when anything failed. */
module Driver {
  import opened Types
  import opened Circuits
  import opened Probe

  /** One entry of the input mapping: fingerprint and nickname. */
  datatype Relay = Relay(fingerprint: Fingerprint, nickname: string)

  function Fingerprints(relays: seq<Relay>): seq<Fingerprint> {
    seq(|relays|, i requires 0 <= i < |relays| => relays[i].fingerprint)
  }

  function Nicknames(relays: seq<Relay>): seq<string> {
    seq(|relays|, i requires 0 <= i < |relays| => relays[i].nickname)
  }

  /** The path of the relay at index `i`: the next relay (cyclically) as
      guard, relay `i` as exit. */
  function PathFor(fps: seq<Fingerprint>, i: nat): Path
    requires i < |fps|
  {
    [fps[(i + 1) % |fps|], fps[i]]
  }

  function Guards(fps: seq<Fingerprint>): seq<Fingerprint> {
    seq(|fps|, i requires 0 <= i < |fps| => PathFor(fps, i)[0])
  }

  function Exits(fps: seq<Fingerprint>): seq<Fingerprint> {
    seq(|fps|, i requires 0 <= i < |fps| => PathFor(fps, i)[1])
  }

  lemma NextIndex(i: nat, n: nat)
    requires i < n
    ensures (i + 1) % n == if i + 1 < n then i + 1 else 0
  {
  }

  lemma PrevIndex(j: nat, n: nat)
    requires j < n
    ensures (j + n - 1) % n == if j == 0 then n - 1 else j - 1
  {
  }

  /** Cyclic pairing: the exits are the relays in input order and the
      guards are the same relays rotated by one; the guard of relay `i` is
      the exit of relay `i + 1 mod n`, and a single relay is paired with
      itself. */
  lemma CyclicPairing(fps: seq<Fingerprint>)
    requires |fps| >= 1
    ensures Exits(fps) == fps
    ensures Guards(fps) == fps[1..] + [fps[0]]
    ensures forall i :: 0 <= i < |fps| ==> PathFor(fps, i)[0] == PathFor(fps, (i + 1) % |fps|)[1]
    ensures |fps| == 1 ==> PathFor(fps, 0) == [fps[0], fps[0]]
  {
    forall i | 0 <= i < |fps|
      ensures Guards(fps)[i] == (fps[1..] + [fps[0]])[i]
    {
      NextIndex(i, |fps|);
    }
  }

  /** Every fingerprint is used as guard as often as it is used as exit. */
  lemma GuardsPermuteExits(fps: seq<Fingerprint>)
    requires |fps| >= 1
    ensures multiset(Guards(fps)) == multiset(Exits(fps))
  {
    CyclicPairing(fps);
    assert fps == [fps[0]] + fps[1..];
  }

  predicate Distinct(fps: seq<Fingerprint>) {
    forall a, b :: 0 <= a < b < |fps| ==> fps[a] != fps[b]
  }

  /** With distinct fingerprints (the keys of the input mapping), each
      fingerprint is the exit of exactly one path, its own, and the guard of
      exactly one path, that of the relay before it (cyclically). */
  lemma ExitOnceGuardOnce(fps: seq<Fingerprint>, j: nat)
    requires Distinct(fps)
    requires j < |fps|
    ensures forall i :: 0 <= i < |fps| ==> (PathFor(fps, i)[1] == fps[j] <==> i == j)
    ensures forall i :: 0 <= i < |fps| ==> (PathFor(fps, i)[0] == fps[j] <==> i == (j + |fps| - 1) % |fps|)
  {
    var n := |fps|;
    PrevIndex(j, n);
    forall i | 0 <= i < n
      ensures PathFor(fps, i)[0] == fps[j] <==> i == (j + n - 1) % n
    {
      NextIndex(i, n);
    }
  }

  /** The paths of every `new_circuit` call of relays `i`, `i + 1`, ...,
      when relay `i + j` made `spans[j]` calls. */
  function Expand(fps: seq<Fingerprint>, i: nat, spans: seq<nat>): seq<Path>
    requires i + |spans| <= |fps|
    decreases |spans|
  {
    if spans == [] then [] else Repeat(PathFor(fps, i), spans[0]) + Expand(fps, i + 1, spans[1..])
  }

  /** The world after probing, the outcome of each `check` and how many
      `new_circuit` calls each relay took. */
  datatype Probed = Probed(world: World, outcomes: seq<Outcome<ProbeResult>>, spans: seq<nat>)

  /** `check` for the relays from index `i` on, strictly one after another. */
  function ProbeFrom(w: World, o: Oracle, fps: seq<Fingerprint>, i: nat): (p: Probed)
    requires i <= |fps|
    ensures |p.outcomes| == |fps| - i
    decreases |fps| - i
  {
    if i == |fps| then Probed(w, [], [])
    else
      var c := Check(w, o, PathFor(fps, i));
      CheckCircuits(w, o, PathFor(fps, i));
      var rest := ProbeFrom(c.world, o, fps, i + 1);
      Probed(rest.world, [c.result] + rest.outcomes, [|c.world.builds| - |w.builds|] + rest.spans)
  }

  /** Every relay made one to six `new_circuit` calls. */
  predicate SpansInRange(spans: seq<nat>) {
    forall j :: 0 <= j < |spans| ==> 1 <= spans[j] <= 6
  }

  /** Relays are probed in input order: relay `i + j`'s calls all come after
      those of the relays before it and all use relay `i + j`'s path, one to
      six of them. */
  lemma {:induction false} ProbeFromInOrder(w: World, o: Oracle, fps: seq<Fingerprint>, i: nat)
    requires i <= |fps|
    decreases |fps| - i
    ensures var p := ProbeFrom(w, o, fps, i);
      && |p.outcomes| == |fps| - i
      && |p.spans| == |fps| - i
      && SpansInRange(p.spans)
      && p.world.builds == w.builds + Expand(fps, i, p.spans)
  {
    if i < |fps| {
      var path := PathFor(fps, i);
      var c := Check(w, o, path);
      CheckCircuits(w, o, path);
      var n := |c.world.builds| - |w.builds|;
      ProbeFromInOrder(c.world, o, fps, i + 1);
      var rest := ProbeFrom(c.world, o, fps, i + 1);
      var p := ProbeFrom(w, o, fps, i);
      assert p == Probed(rest.world, [c.result] + rest.outcomes, [n] + rest.spans);
      assert p.spans[1..] == rest.spans;
      assert SpansInRange(p.spans) by {
        forall j | 0 <= j < |p.spans|
          ensures 1 <= p.spans[j] <= 6
        {
          if j > 0 {
            assert p.spans[j] == rest.spans[j - 1];
          }
        }
      }
      calc {
        p.world.builds;
        rest.world.builds;
        c.world.builds + Expand(fps, i + 1, rest.spans);
        (w.builds + Repeat(path, n)) + Expand(fps, i + 1, rest.spans);
        w.builds + (Repeat(path, n) + Expand(fps, i + 1, rest.spans));
        w.builds + Expand(fps, i, p.spans);
      }
    }
  }

  /** Every circuit error among `outcomes`, the outcomes of relays `i`,
      `i + 1`, ..., carries the path of its own relay. */
  predicate OwnPaths(outcomes: seq<Outcome<ProbeResult>>, fps: seq<Fingerprint>, i: nat)
    requires i + |outcomes| <= |fps|
  {
    forall j :: 0 <= j < |outcomes| && outcomes[j].Err? ==>
      outcomes[j].error == CircuitCreationError(PathFor(fps, i + j))
  }

  /** A relay's `CircuitCreationError` carries that relay's own path. */
  lemma {:induction false} ProbeFromErrors(w: World, o: Oracle, fps: seq<Fingerprint>, i: nat)
    requires i <= |fps|
    decreases |fps| - i
    ensures OwnPaths(ProbeFrom(w, o, fps, i).outcomes, fps, i)
  {
    if i < |fps| {
      var path := PathFor(fps, i);
      var c := Check(w, o, path);
      CheckRaisesOwnPath(w, o, path);
      ProbeFromErrors(c.world, o, fps, i + 1);
      var rest := ProbeFrom(c.world, o, fps, i + 1).outcomes;
      var outcomes := ProbeFrom(w, o, fps, i).outcomes;
      assert outcomes == [c.result] + rest;
      forall j | 0 <= j < |outcomes| && outcomes[j].Err?
        ensures outcomes[j].error == CircuitCreationError(PathFor(fps, i + j))
      {
        if j > 0 {
          assert outcomes[j] == rest[j - 1];
          assert OwnPaths(rest, fps, i + 1);
        }
      }
    }
  }

  /** Probing leaves the registered listeners as it found them. */
  lemma {:induction false} ProbeFromListeners(w: World, o: Oracle, fps: seq<Fingerprint>, i: nat)
    requires i <= |fps|
    requires Valid(w)
    decreases |fps| - i
    ensures var p := ProbeFrom(w, o, fps, i);
      Valid(p.world) && p.world.listeners == w.listeners
  {
    if i < |fps| {
      var path := PathFor(fps, i);
      var c := Check(w, o, path);
      CheckCleansUp(w, o, path);
      ProbeFromListeners(c.world, o, fps, i + 1);
      assert ProbeFrom(w, o, fps, i).world == ProbeFrom(c.world, o, fps, i + 1).world;
    }
  }

  /** Every outcome is SUCCESS. */
  predicate AllPassed(outcomes: seq<Outcome<ProbeResult>>) {
    forall j :: 0 <= j < |outcomes| ==> outcomes[j] == Ok(Success)
  }

  /** Every outcome is a raised `CircuitCreationError`. */
  predicate AllRaised(outcomes: seq<Outcome<ProbeResult>>) {
    forall j :: 0 <= j < |outcomes| ==> outcomes[j].Err? && outcomes[j].error.CircuitCreationError?
  }

  /** With circuits that always build and requests always answered, every
      relay passes. */
  lemma {:induction false} ProbeFromHealthy(w: World, o: Oracle, fps: seq<Fingerprint>, i: nat)
    requires i <= |fps|
    requires AlwaysBuilds(o) && AlwaysAnswers(o)
    decreases |fps| - i
    ensures AllPassed(ProbeFrom(w, o, fps, i).outcomes)
  {
    if i < |fps| {
      var path := PathFor(fps, i);
      var c := Check(w, o, path);
      CheckHealthy(w, o, path);
      ProbeFromHealthy(c.world, o, fps, i + 1);
      var rest := ProbeFrom(c.world, o, fps, i + 1).outcomes;
      var outcomes := ProbeFrom(w, o, fps, i).outcomes;
      assert outcomes == [c.result] + rest;
      forall j | 0 <= j < |outcomes|
        ensures outcomes[j] == Ok(Success)
      {
        if j > 0 {
          assert outcomes[j] == rest[j - 1];
          assert AllPassed(rest);
        }
      }
    }
  }

  /** With no circuit ever built, every relay raises `CircuitCreationError`. */
  lemma {:induction false} ProbeFromUnbuildable(w: World, o: Oracle, fps: seq<Fingerprint>, i: nat)
    requires i <= |fps|
    requires NeverBuilds(o)
    decreases |fps| - i
    ensures AllRaised(ProbeFrom(w, o, fps, i).outcomes)
  {
    if i < |fps| {
      var path := PathFor(fps, i);
      var c := Check(w, o, path);
      CheckUnbuildable(w, o, path);
      ProbeFromUnbuildable(c.world, o, fps, i + 1);
      var rest := ProbeFrom(c.world, o, fps, i + 1).outcomes;
      var outcomes := ProbeFrom(w, o, fps, i).outcomes;
      assert outcomes == [c.result] + rest;
      forall j | 0 <= j < |outcomes|
        ensures outcomes[j].Err? && outcomes[j].error.CircuitCreationError?
      {
        if j > 0 {
          assert outcomes[j] == rest[j - 1];
          assert AllRaised(rest);
        }
      }
    }
  }

  /** How `main` treats the outcome of one `check`. */
  datatype Kind = Passed | Failed | CircuitFailed

  function KindOf(x: Outcome<ProbeResult>): Kind {
    match x
    case Ok(Success) => Passed
    case Ok(_) => Failed
    case Err(CircuitCreationError(_)) => CircuitFailed
    case Err(Error(_)) => Failed
  }

  /** The text after `<nickname>: ` of a line `main` echoes. */
  datatype Message = Fine | DnsFailure | BothFailure | Crash(text: string) | CircuitFailure

  datatype Line = Line(nickname: string, message: Message)

  function Text(m: Message): string {
    match m
    case Fine => "OK"
    case DnsFailure => "DNS resolution failed."
    case BothFailure => "Both requests failed."
    case Crash(text) => text
    case CircuitFailure => "Circuit creation failed."
  }

  function Render(l: Line): string {
    l.nickname + ": " + Text(l.message)
  }

  function RenderAll(ls: seq<Line>): seq<string> {
    seq(|ls|, i requires 0 <= i < |ls| => Render(ls[i]))
  }

  /** What the loop body echoes at once for an outcome: nothing for a
      circuit-creation failure (it is collected instead) or for a success
      unless verbose. */
  function Echo(x: Outcome<ProbeResult>, verbose: bool): Option<Message> {
    match x
    case Ok(Success) => if verbose then Some(Fine) else None
    case Ok(Url1Failure) => Some(DnsFailure)
    case Ok(Url2Failure) => Some(BothFailure)
    case Err(CircuitCreationError(_)) => None
    case Err(Error(text)) => Some(Crash(text))
  }

  /** What `main` accumulates over its loop: the lines echoed, the
      nicknames in `circuit_errors` and `error_status`. */
  datatype Tallied = Tallied(lines: seq<Line>, circuitErrors: seq<string>, errorStatus: bool)

  /** One iteration of the loop body for relay `nick` whose `check` ended in
      `x`. */
  function Step(t: Tallied, nick: string, x: Outcome<ProbeResult>, verbose: bool): Tallied {
    var t1 := if x.Err? && x.error.CircuitCreationError? then t.(circuitErrors := t.circuitErrors + [nick]) else t;
    var t2 := if KindOf(x) == Failed then t1.(errorStatus := true) else t1;
    match Echo(x, verbose)
    case Some(m) => t2.(lines := t2.lines + [Line(nick, m)])
    case None => t2
  }

  /** The loop of `main` over all relays, from an empty state. */
  function Tally(nicks: seq<string>, xs: seq<Outcome<ProbeResult>>, verbose: bool): Tallied
    requires |nicks| == |xs|
    decreases |xs|
  {
    if xs == [] then Tallied([], [], false)
    else Step(Tally(nicks[..|xs| - 1], xs[..|xs| - 1], verbose), nicks[|xs| - 1], xs[|xs| - 1], verbose)
  }

  /** Number of outcomes of kind `k`. */
  function Count(xs: seq<Outcome<ProbeResult>>, k: Kind): nat
    decreases |xs|
  {
    if xs == [] then 0 else Count(xs[..|xs| - 1], k) + (if KindOf(xs[|xs| - 1]) == k then 1 else 0)
  }

  /** Nicknames of the relays whose `check` raised `CircuitCreationError`, in
      input order. */
  function CircuitFailures(nicks: seq<string>, xs: seq<Outcome<ProbeResult>>): seq<string>
    requires |nicks| == |xs|
    decreases |xs|
  {
    if xs == [] then []
    else
      var last := if KindOf(xs[|xs| - 1]) == CircuitFailed then [nicks[|xs| - 1]] else [];
      CircuitFailures(nicks[..|xs| - 1], xs[..|xs| - 1]) + last
  }

  lemma {:induction false} CountPositive(xs: seq<Outcome<ProbeResult>>, k: Kind)
    decreases |xs|
    ensures Count(xs, k) > 0 <==> exists i :: 0 <= i < |xs| && KindOf(xs[i]) == k
  {
    if xs != [] {
      CountPositive(xs[..|xs| - 1], k);
      assert forall i :: 0 <= i < |xs| - 1 ==> xs[..|xs| - 1][i] == xs[i];
    }
  }

  lemma {:induction false} CountTotal(xs: seq<Outcome<ProbeResult>>)
    decreases |xs|
    ensures Count(xs, Passed) + Count(xs, Failed) + Count(xs, CircuitFailed) == |xs|
  {
    if xs != [] {
      CountTotal(xs[..|xs| - 1]);
    }
  }

  /** When every outcome is of kind `k`, all are counted under `k` and none
      under another kind. */
  lemma CountUniform(xs: seq<Outcome<ProbeResult>>, k: Kind)
    requires forall i :: 0 <= i < |xs| ==> KindOf(xs[i]) == k
    ensures forall k' :: Count(xs, k') == if k' == k then |xs| else 0
  {
  }

  /** The loop, relay by relay: each relay adds at most one line, and its
      line, if any, carries its nickname and the message for its outcome;
      an "OK" line only appears when verbose. There is one line per failed
      relay plus, when verbose, one per passed relay; `error_status` is set
      iff some relay failed other than by circuit creation; `circuit_errors`
      lists the circuit-failed relays in input order. */
  lemma {:induction false} TallySpec(nicks: seq<string>, xs: seq<Outcome<ProbeResult>>, verbose: bool)
    requires |nicks| == |xs|
    decreases |xs|
    ensures var t := Tally(nicks, xs, verbose);
      |t.lines| == Count(xs, Failed) + (if verbose then Count(xs, Passed) else 0)
    ensures var t := Tally(nicks, xs, verbose);
      t.errorStatus <==> Count(xs, Failed) > 0
    ensures Tally(nicks, xs, verbose).circuitErrors == CircuitFailures(nicks, xs)
    ensures var t := Tally(nicks, xs, verbose);
      forall i :: 0 <= i < |t.lines| && t.lines[i].message == Fine ==> verbose
    ensures var t := Tally(nicks, xs, verbose);
      forall i :: 0 <= i < |xs| && Echo(xs[i], verbose).Some? ==>
        Line(nicks[i], Echo(xs[i], verbose).value) in t.lines
  {
    if xs != [] {
      var n := |xs| - 1;
      TallySpec(nicks[..n], xs[..n], verbose);
      var t0 := Tally(nicks[..n], xs[..n], verbose);
      var t := Tally(nicks, xs, verbose);
      assert forall l :: l in t0.lines ==> l in t.lines;
      forall i | 0 <= i < |xs| && Echo(xs[i], verbose).Some?
        ensures Line(nicks[i], Echo(xs[i], verbose).value) in t.lines
      {
        if i < n {
          assert nicks[..n][i] == nicks[i] && xs[..n][i] == xs[i];
        }
      }
    }
  }

  /** The line one relay contributes: its nickname with the echoed message,
      or nothing. */
  function EchoOf(nick: string, x: Outcome<ProbeResult>, verbose: bool): seq<Line> {
    if Echo(x, verbose).Some? then [Line(nick, Echo(x, verbose).value)] else []
  }

  /** Reference for the echoed lines, relay by relay from the front: each
      relay's line, if any, in input order. */
  function Echoed(nicks: seq<string>, xs: seq<Outcome<ProbeResult>>, verbose: bool): seq<Line>
    requires |nicks| == |xs|
    decreases |xs|
  {
    if xs == [] then [] else EchoOf(nicks[0], xs[0], verbose) + Echoed(nicks[1..], xs[1..], verbose)
  }

  /** A single relay echoes exactly its own line, if any. */
  lemma TallyOne(nick: string, x: Outcome<ProbeResult>, verbose: bool)
    ensures Tally([nick], [x], verbose).lines == EchoOf(nick, x, verbose)
  {
  }

  /** Line order is kept: the lines echoed for a concatenation are those of
      the first part followed by those of the second. */
  lemma {:induction false} TallyAppend(n1: seq<string>, x1: seq<Outcome<ProbeResult>>,
                                       n2: seq<string>, x2: seq<Outcome<ProbeResult>>, verbose: bool)
    requires |n1| == |x1| && |n2| == |x2|
    decreases |x2|
    ensures Tally(n1 + n2, x1 + x2, verbose).lines == Tally(n1, x1, verbose).lines + Tally(n2, x2, verbose).lines
  {
    if x2 == [] {
      assert n1 + n2 == n1 && x1 + x2 == x1;
    } else {
      var m := |x2| - 1;
      TallyAppend(n1, x1, n2[..m], x2[..m], verbose);
      assert (n1 + n2)[..|x1 + x2| - 1] == n1 + n2[..m];
      assert (x1 + x2)[..|x1 + x2| - 1] == x1 + x2[..m];
      assert (x1 + x2)[|x1 + x2| - 1] == x2[m];
      assert (n1 + n2)[|x1 + x2| - 1] == n2[m];
    }
  }

  /** The loop echoes exactly the reference lines: one line per relay that
      echoes, in input order, even when nicknames repeat. */
  lemma {:induction false} TallyInOrder(nicks: seq<string>, xs: seq<Outcome<ProbeResult>>, verbose: bool)
    requires |nicks| == |xs|
    decreases |xs|
    ensures Tally(nicks, xs, verbose).lines == Echoed(nicks, xs, verbose)
  {
    if xs != [] {
      TallyInOrder(nicks[1..], xs[1..], verbose);
      TallyOne(nicks[0], xs[0], verbose);
      assert nicks == [nicks[0]] + nicks[1..] && xs == [xs[0]] + xs[1..];
      TallyAppend([nicks[0]], [xs[0]], nicks[1..], xs[1..], verbose);
    }
  }

  /** Nickname order is kept: the failures of a concatenation are the
      failures of the first part followed by those of the second. */
  lemma {:induction false} CircuitFailuresAppend(n1: seq<string>, x1: seq<Outcome<ProbeResult>>,
                                                 n2: seq<string>, x2: seq<Outcome<ProbeResult>>)
    requires |n1| == |x1| && |n2| == |x2|
    decreases |x2|
    ensures CircuitFailures(n1 + n2, x1 + x2) == CircuitFailures(n1, x1) + CircuitFailures(n2, x2)
  {
    if x2 == [] {
      assert n1 + n2 == n1 && x1 + x2 == x1;
    } else {
      var m := |x2| - 1;
      CircuitFailuresAppend(n1, x1, n2[..m], x2[..m]);
      assert (n1 + n2)[..|x1 + x2| - 1] == n1 + n2[..m];
      assert (x1 + x2)[..|x1 + x2| - 1] == x1 + x2[..m];
      assert (x1 + x2)[|x1 + x2| - 1] == x2[m];
      assert (n1 + n2)[|x1 + x2| - 1] == n2[m];
    }
  }

  /** A nickname is collected iff some relay with that nickname failed to get
      a circuit; there is one entry per such relay. */
  lemma {:induction false} CircuitFailuresExact(nicks: seq<string>, xs: seq<Outcome<ProbeResult>>)
    requires |nicks| == |xs|
    decreases |xs|
    ensures |CircuitFailures(nicks, xs)| == Count(xs, CircuitFailed)
    ensures forall nick :: nick in CircuitFailures(nicks, xs) <==>
      exists i :: 0 <= i < |xs| && KindOf(xs[i]) == CircuitFailed && nicks[i] == nick
  {
    if xs != [] {
      var n := |xs| - 1;
      CircuitFailuresExact(nicks[..n], xs[..n]);
      assert forall i :: 0 <= i < n ==> nicks[..n][i] == nicks[i] && xs[..n][i] == xs[i];
    }
  }

  /** The circuit-error report of dnsmonitor.py lines 121-124 fires iff the list is
      non-empty and at least `errors` long. */
  predicate Fires(circuitErrors: seq<string>, errors: int) {
    |circuitErrors| > 0 && |circuitErrors| >= errors
  }

  /** The report: one line per collected nickname, in order, or none. */
  function Report(circuitErrors: seq<string>, errors: int): seq<Line> {
    if Fires(circuitErrors, errors) then
      seq(|circuitErrors|, i requires 0 <= i < |circuitErrors| => Line(circuitErrors[i], CircuitFailure))
    else []
  }

  /** A whole run: the world afterwards, every relay's outcome and call
      count, the lines echoed and the exit status. */
  datatype Run = Run(world: World, outcomes: seq<Outcome<ProbeResult>>, spans: seq<nat>,
                     output: seq<string>, status: int)

  /** Everything `main` does once every relay was probed: the loop's
      bookkeeping, the report and the exit status. */
  function Finish(p: Probed, nicks: seq<string>, errors: int, verbose: bool): Run
    requires |p.outcomes| == |nicks|
  {
    var t := Tally(nicks, p.outcomes, verbose);
    var fired := Fires(t.circuitErrors, errors);
    Run(p.world, p.outcomes, p.spans,
        RenderAll(t.lines + Report(t.circuitErrors, errors)),
        if t.errorStatus || fired then 1 else 0)
  }

  /** `main(exits_json, errors, verbose)` after the input has been loaded:
      the loop of dnsmonitor.py lines 99-119, then lines 121-126. */
  function Main(w: World, o: Oracle, relays: seq<Relay>, errors: int, verbose: bool): (r: Run)
    ensures |r.outcomes| == |relays|
  {
    Finish(ProbeFrom(w, o, Fingerprints(relays), 0), Nicknames(relays), errors, verbose)
  }

  lemma FinishStatus(p: Probed, nicks: seq<string>, errors: int, verbose: bool)
    requires |p.outcomes| == |nicks|
    ensures var r := Finish(p, nicks, errors, verbose);
      var failures := Count(r.outcomes, CircuitFailed);
      && (r.status == 0 || r.status == 1)
      && (r.status == 1 <==>
            (exists i :: 0 <= i < |r.outcomes| && KindOf(r.outcomes[i]) == Failed)
            || (failures > 0 && failures >= errors))
  {
    TallySpec(nicks, p.outcomes, verbose);
    CircuitFailuresExact(nicks, p.outcomes);
    CountPositive(p.outcomes, Failed);
  }

  /** Exit status: 1 iff some relay failed other than by circuit creation,
      or the circuit-error report fired; 0 otherwise. */
  lemma MainStatus(w: World, o: Oracle, relays: seq<Relay>, errors: int, verbose: bool)
    ensures var r := Main(w, o, relays, errors, verbose);
      var failures := Count(r.outcomes, CircuitFailed);
      && (r.status == 0 || r.status == 1)
      && (r.status == 1 <==>
            (exists i :: 0 <= i < |r.outcomes| && KindOf(r.outcomes[i]) == Failed)
            || (failures > 0 && failures >= errors))
  {
    FinishStatus(ProbeFrom(w, o, Fingerprints(relays), 0), Nicknames(relays), errors, verbose);
  }

  lemma FinishOutputSize(p: Probed, nicks: seq<string>, errors: int, verbose: bool)
    requires |p.outcomes| == |nicks|
    ensures var r := Finish(p, nicks, errors, verbose);
      var failures := Count(r.outcomes, CircuitFailed);
      var report := if failures > 0 && failures >= errors then failures else 0;
      |r.output| == Count(r.outcomes, Failed) + (if verbose then Count(r.outcomes, Passed) else 0) + report
    ensures var r := Finish(p, nicks, errors, verbose);
      |r.output| <= |nicks| + Count(r.outcomes, CircuitFailed)
  {
    var t := Tally(nicks, p.outcomes, verbose);
    TallySpec(nicks, p.outcomes, verbose);
    CircuitFailuresExact(nicks, p.outcomes);
    CountTotal(p.outcomes);
    assert |Finish(p, nicks, errors, verbose).output| == |t.lines| + |Report(t.circuitErrors, errors)|;
  }

  /** Output: the loop's lines, at most one per relay, then the report's,
      one per circuit-failed relay in input order when it fires. */
  lemma MainOutputSize(w: World, o: Oracle, relays: seq<Relay>, errors: int, verbose: bool)
    ensures var r := Main(w, o, relays, errors, verbose);
      var failures := Count(r.outcomes, CircuitFailed);
      var report := if failures > 0 && failures >= errors then failures else 0;
      |r.output| == Count(r.outcomes, Failed) + (if verbose then Count(r.outcomes, Passed) else 0) + report
    ensures var r := Main(w, o, relays, errors, verbose);
      |r.output| <= |relays| + Count(r.outcomes, CircuitFailed)
  {
    FinishOutputSize(ProbeFrom(w, o, Fingerprints(relays), 0), Nicknames(relays), errors, verbose);
  }

  /** Rendering the loop's lines followed by a fired report ends with one
      "Circuit creation failed." line per collected nickname, in order. */
  lemma RenderedReport(lines: seq<Line>, cf: seq<string>, errors: int)
    requires Fires(cf, errors)
    ensures var out := RenderAll(lines + Report(cf, errors));
      && |out| == |lines| + |cf|
      && forall i :: 0 <= i < |cf| ==> out[|lines| + i] == cf[i] + ": " + Text(CircuitFailure)
  {
  }

  lemma FinishReportLines(p: Probed, nicks: seq<string>, errors: int, verbose: bool)
    requires |p.outcomes| == |nicks|
    ensures var r := Finish(p, nicks, errors, verbose);
      var cf := CircuitFailures(nicks, r.outcomes);
      Fires(cf, errors) ==>
        && |cf| <= |r.output|
        && forall i :: 0 <= i < |cf| ==>
             r.output[|r.output| - |cf| + i] == cf[i] + ": " + Text(CircuitFailure)
  {
    var t := Tally(nicks, p.outcomes, verbose);
    TallySpec(nicks, p.outcomes, verbose);
    var cf := t.circuitErrors;
    var out := Finish(p, nicks, errors, verbose).output;
    assert out == RenderAll(t.lines + Report(cf, errors));
    if Fires(cf, errors) {
      RenderedReport(t.lines, cf, errors);
      assert |out| - |cf| == |t.lines|;
    }
  }

  /** When the report fires, the output ends with one "Circuit creation
      failed." line per circuit-failed relay, in input order. */
  lemma MainReportLines(w: World, o: Oracle, relays: seq<Relay>, errors: int, verbose: bool)
    ensures var r := Main(w, o, relays, errors, verbose);
      var cf := CircuitFailures(Nicknames(relays), r.outcomes);
      Fires(cf, errors) ==>
        && |cf| <= |r.output|
        && forall i :: 0 <= i < |cf| ==>
             r.output[|r.output| - |cf| + i] == cf[i] + ": " + Text(CircuitFailure)
  {
    var p := ProbeFrom(w, o, Fingerprints(relays), 0);
    assert Main(w, o, relays, errors, verbose) == Finish(p, Nicknames(relays), errors, verbose);
    FinishReportLines(p, Nicknames(relays), errors, verbose);
  }

  lemma FinishOutput(p: Probed, nicks: seq<string>, errors: int, verbose: bool)
    requires |p.outcomes| == |nicks|
    ensures var r := Finish(p, nicks, errors, verbose);
      r.output == RenderAll(Echoed(nicks, r.outcomes, verbose) + Report(CircuitFailures(nicks, r.outcomes), errors))
  {
    TallyInOrder(nicks, p.outcomes, verbose);
    TallySpec(nicks, p.outcomes, verbose);
  }

  /** The whole output, line by line: every relay's line, if any, in input
      order, then the report for the circuit-failed relays in input order
      when it fires. */
  lemma MainOutput(w: World, o: Oracle, relays: seq<Relay>, errors: int, verbose: bool)
    ensures var r := Main(w, o, relays, errors, verbose);
      r.output == RenderAll(Echoed(Nicknames(relays), r.outcomes, verbose)
                            + Report(CircuitFailures(Nicknames(relays), r.outcomes), errors))
  {
    var p := ProbeFrom(w, o, Fingerprints(relays), 0);
    assert Main(w, o, relays, errors, verbose) == Finish(p, Nicknames(relays), errors, verbose);
    FinishOutput(p, Nicknames(relays), errors, verbose);
  }

  /** Relays are visited in input order, each with its own cyclic path, and
      the listeners are as before the run; with no relays nothing happens. */
  lemma MainVisitsInOrder(w: World, o: Oracle, relays: seq<Relay>, errors: int, verbose: bool)
    ensures var r := Main(w, o, relays, errors, verbose);
      && |r.outcomes| == |relays| && |r.spans| == |relays|
      && (forall j :: 0 <= j < |r.spans| ==> 1 <= r.spans[j] <= 6)
      && r.world.builds == w.builds + Expand(Fingerprints(relays), 0, r.spans)
    ensures var r := Main(w, o, relays, errors, verbose);
      forall j :: 0 <= j < |r.outcomes| && r.outcomes[j].Err? ==>
        r.outcomes[j].error == CircuitCreationError(PathFor(Fingerprints(relays), j))
    ensures var r := Main(w, o, relays, errors, verbose);
      Valid(w) ==> r.world.listeners == w.listeners
    ensures var r := Main(w, o, relays, errors, verbose);
      relays == [] ==> r.world == w && r.output == [] && r.status == 0
  {
    ProbeFromInOrder(w, o, Fingerprints(relays), 0);
    ProbeFromErrors(w, o, Fingerprints(relays), 0);
    if Valid(w) {
      ProbeFromListeners(w, o, Fingerprints(relays), 0);
    }
  }

  /** The "OK" line of every relay, in input order. */
  function OkLines(nicks: seq<string>): seq<Line> {
    seq(|nicks|, i requires 0 <= i < |nicks| => Line(nicks[i], Fine))
  }

  /** When every relay passed, the loop's lines are the "OK" lines, and only
      when verbose. */
  lemma {:induction false} EchoedAllPassed(nicks: seq<string>, xs: seq<Outcome<ProbeResult>>, verbose: bool)
    requires |nicks| == |xs| && AllPassed(xs)
    decreases |xs|
    ensures Echoed(nicks, xs, verbose) == if verbose then OkLines(nicks) else []
  {
    if xs != [] {
      assert forall j :: 0 <= j < |xs| - 1 ==> xs[1..][j] == xs[j + 1];
      EchoedAllPassed(nicks[1..], xs[1..], verbose);
      OkLinesCons(nicks);
    }
  }

  lemma OkLinesCons(nicks: seq<string>)
    requires nicks != []
    ensures OkLines(nicks) == [Line(nicks[0], Fine)] + OkLines(nicks[1..])
  {
    assert forall j :: 0 <= j < |nicks| - 1 ==> nicks[1..][j] == nicks[j + 1];
  }

  /** When every relay raised, the loop echoes nothing. */
  lemma {:induction false} EchoedAllRaised(nicks: seq<string>, xs: seq<Outcome<ProbeResult>>, verbose: bool)
    requires |nicks| == |xs| && AllRaised(xs)
    decreases |xs|
    ensures Echoed(nicks, xs, verbose) == []
  {
    if xs != [] {
      assert forall j :: 0 <= j < |xs| - 1 ==> xs[1..][j] == xs[j + 1];
      EchoedAllRaised(nicks[1..], xs[1..], verbose);
    }
  }

  /** When every relay raised, every nickname is collected, in input order. */
  lemma {:induction false} CircuitFailuresAllRaised(nicks: seq<string>, xs: seq<Outcome<ProbeResult>>)
    requires |nicks| == |xs| && AllRaised(xs)
    decreases |xs|
    ensures CircuitFailures(nicks, xs) == nicks
  {
    if xs != [] {
      var n := |xs| - 1;
      assert forall j :: 0 <= j < n ==> xs[..n][j] == xs[j];
      CircuitFailuresAllRaised(nicks[..n], xs[..n]);
      assert nicks == nicks[..n] + [nicks[n]];
    }
  }

  /** After a run where every relay passed, the exit status is 0 and only
      the "OK" lines are echoed, one per relay when verbose. */
  lemma FinishAllPassed(p: Probed, nicks: seq<string>, errors: int, verbose: bool)
    requires |p.outcomes| == |nicks| && AllPassed(p.outcomes)
    ensures var r := Finish(p, nicks, errors, verbose);
      |r.output| == (if verbose then |nicks| else 0) && r.status == 0
    ensures Finish(p, nicks, errors, verbose).output == RenderAll(if verbose then OkLines(nicks) else [])
  {
    assert forall j :: 0 <= j < |p.outcomes| ==> KindOf(p.outcomes[j]) == Passed;
    CountUniform(p.outcomes, Passed);
    assert Finish(p, nicks, errors, verbose).output == RenderAll(if verbose then OkLines(nicks) else []) by {
      FinishOutput(p, nicks, errors, verbose);
      EchoedAllPassed(nicks, p.outcomes, verbose);
      CircuitFailuresExact(nicks, p.outcomes);
      assert CircuitFailures(nicks, p.outcomes) == [];
    }
    FinishStatus(p, nicks, errors, verbose);
  }

  /** After a run where every relay raised, only the report can be echoed,
      and it (and exit status 1) happens iff there is at least one relay and
      at least `errors` of them. */
  lemma FinishAllRaised(p: Probed, nicks: seq<string>, errors: int, verbose: bool)
    requires |p.outcomes| == |nicks| && AllRaised(p.outcomes)
    ensures var r := Finish(p, nicks, errors, verbose);
      var fired := 0 < |nicks| && errors <= |nicks|;
      |r.output| == (if fired then |nicks| else 0) && r.status == (if fired then 1 else 0)
    ensures Finish(p, nicks, errors, verbose).output == RenderAll(Report(nicks, errors))
  {
    assert Finish(p, nicks, errors, verbose).output == RenderAll(Report(nicks, errors)) by {
      FinishOutput(p, nicks, errors, verbose);
      EchoedAllRaised(nicks, p.outcomes, verbose);
      CircuitFailuresAllRaised(nicks, p.outcomes);
    }
    assert forall j :: 0 <= j < |p.outcomes| ==> KindOf(p.outcomes[j]) == CircuitFailed;
    CountUniform(p.outcomes, CircuitFailed);
    FinishStatus(p, nicks, errors, verbose);
    FinishOutputSize(p, nicks, errors, verbose);
  }

  /** A healthy network: every relay passes, nothing but "OK" lines are
      echoed (one per relay, and only when verbose) and the exit status
      is 0. */
  lemma MainHealthy(w: World, o: Oracle, relays: seq<Relay>, errors: int, verbose: bool)
    requires AlwaysBuilds(o) && AlwaysAnswers(o)
    ensures var r := Main(w, o, relays, errors, verbose);
      && (forall j :: 0 <= j < |r.outcomes| ==> r.outcomes[j] == Ok(Success))
      && |r.output| == (if verbose then |relays| else 0)
      && r.status == 0
    ensures var r := Main(w, o, relays, errors, verbose);
      r.output == RenderAll(if verbose then OkLines(Nicknames(relays)) else [])
  {
    var p := ProbeFrom(w, o, Fingerprints(relays), 0);
    ProbeFromHealthy(w, o, Fingerprints(relays), 0);
    FinishAllPassed(p, Nicknames(relays), errors, verbose);
  }

  /** No circuit can be built: every relay raises `CircuitCreationError` for
      its own path, only the report can be echoed, and it (and exit status
      1) happens iff there is at least one relay and at least `errors` of
      them. */
  lemma MainUnbuildable(w: World, o: Oracle, relays: seq<Relay>, errors: int, verbose: bool)
    requires NeverBuilds(o)
    ensures var r := Main(w, o, relays, errors, verbose);
      var fired := 0 < |relays| && errors <= |relays|;
      && (forall j :: 0 <= j < |r.outcomes| ==>
            r.outcomes[j] == Err(CircuitCreationError(PathFor(Fingerprints(relays), j))))
      && |r.output| == (if fired then |relays| else 0)
      && r.status == (if fired then 1 else 0)
    ensures var r := Main(w, o, relays, errors, verbose);
      r.output == RenderAll(Report(Nicknames(relays), errors))
  {
    var p := ProbeFrom(w, o, Fingerprints(relays), 0);
    ProbeFromUnbuildable(w, o, Fingerprints(relays), 0);
    ProbeFromErrors(w, o, Fingerprints(relays), 0);
    assert AllRaised(p.outcomes) && OwnPaths(p.outcomes, Fingerprints(relays), 0);
    FinishAllRaised(p, Nicknames(relays), errors, verbose);
  }
}
