/** Start-up and shut-down of the zingo-proxy daemon: the node check, the
    spawn of the gRPC server, the bounded health-check loop against that
    server, the optional Nym server, and the shared online flag.

    Tokio timing, spawning and network probes are abstract events: each is
    appended to a ghost `trace` of the process. How each probe ends is
    given by an oracle: `probes[k]` is the outcome of the probe made while
    the attempt counter holds `k`. */
module Proxy {
  import opened Wrappers
  import GrpcConnector
  import opened Decimal

  /** The health check gives up after this many probes. */
  const MaxAttempts: nat := 3

  /** How one probe ends: `connect` fails, `get_lightd_info` fails, or both succeed. */
  datatype ProbeOutcome = ConnectFailed | InfoFailed | Answered

  /** How `wait_on_grpc_startup` ends: it returns, or the process exits. */
  datatype Exit = Returned | Exited(code: int)

  /** The cargo feature set the daemon is built with. */
  datatype Build = Default | NymPoc

  /** The join handles `spawn_proxy` collects. */
  datatype Handle = GrpcServerTask | NymServerTask

  /** How `spawn_proxy` ends: it returns its Nym address, the node check's
      `unwrap` panics, or the health check exits the process. */
  datatype SpawnStatus = Launched(nymAddr: Option<string>) | NodeCheckPanicked | ProcessExited(code: int)

  datatype Event =
    | CheckNode(zebradPort: u16)
    | SpawnGrpcServer(proxyPort: u16, lwdPort: u16, zebradPort: u16)
    | Tick
    | Probe(uri: GrpcConnector.Uri, outcome: ProbeOutcome)
    | StoreOnline(value: bool)
    | ProcessExit(code: int)
    | SpawnNymServer(confPath: string)
    | Sleep(seconds: nat)

  /** `http://localhost:{port}/`, the address the health check probes. */
  function ProbeUri(port: u16): (u: GrpcConnector.Uri)
    ensures u.scheme == Some("http") && u.pathAndQuery == Some("/")
    ensures u.authority.Some? && |u.authority.value| > 10 && u.authority.value[..10] == "localhost:"
    ensures forall i :: 10 <= i < |u.authority.value| ==> IsDigit(u.authority.value[i])
    ensures Parse(u.authority.value[10..]) == port as nat
  {
    var authority := "localhost:" + Render(port as nat);
    assert authority[10..] == Render(port as nat);
    ParseRender(port as nat);
    GrpcConnector.Uri(Some("http"), Some(authority), Some("/"))
  }

  /** Distinct ports are probed at distinct URIs. */
  lemma ProbeUriInjective(p: u16, q: u16)
    requires ProbeUri(p) == ProbeUri(q)
    ensures p == q
  {
    var a, b := "localhost:" + Render(p as nat), "localhost:" + Render(q as nat);
    assert a[10..] == Render(p as nat);
    assert b[10..] == Render(q as nat);
    RenderInjective(p as nat, q as nat);
  }

  /** The value of the `attempts` counter when the loop stops, if it is
      entered with `from`: the index of the first answered probe, or
      `MaxAttempts` if none of the remaining ones answers. */
  function FinalAttempts(probes: seq<ProbeOutcome>, from: nat): (n: nat)
    requires |probes| == MaxAttempts && from <= MaxAttempts
    ensures from <= n <= MaxAttempts
    ensures n < MaxAttempts ==> probes[n] == Answered
    ensures forall j :: from <= j < n ==> probes[j] != Answered
    decreases MaxAttempts - from
  {
    if from == MaxAttempts then MaxAttempts
    else if probes[from] == Answered then from
    else FinalAttempts(probes, from + 1)
  }

  /** How the health check ends for the given probe outcomes. */
  function WaitExit(probes: seq<ProbeOutcome>): (e: Exit)
    requires |probes| == MaxAttempts
    ensures e == Returned <==> Answered in probes
    ensures e != Returned ==> e == Exited(1)
  {
    if FinalAttempts(probes, 0) < MaxAttempts then Returned else Exited(1)
  }

  /** The events of the `while attempts < 3` loop entered with counter `attempts`. */
  function ProbeLoop(uri: GrpcConnector.Uri, probes: seq<ProbeOutcome>, attempts: nat): (ev: seq<Event>)
    requires |probes| == MaxAttempts && attempts <= MaxAttempts
    ensures var n := FinalAttempts(probes, attempts);
      |ev| == 2 * (n - attempts) + (if n < MaxAttempts then 1 else 2)
    ensures forall e :: e in ev ==> e.Probe? || e.Tick? || e.StoreOnline? || e.ProcessExit?
    decreases MaxAttempts - attempts
  {
    if attempts == MaxAttempts then [StoreOnline(false), ProcessExit(1)]
    else if probes[attempts] == Answered then [Probe(uri, Answered)]
    else [Probe(uri, probes[attempts]), Tick] + ProbeLoop(uri, probes, attempts + 1)
  }

  /** The events of `wait_on_grpc_startup`: one tick, then the loop. */
  function WaitEvents(port: u16, probes: seq<ProbeOutcome>): (ev: seq<Event>)
    requires |probes| == MaxAttempts
    ensures var n := FinalAttempts(probes, 0);
      |ev| == (if n < MaxAttempts then 2 * n + 2 else 2 * MaxAttempts + 3)
    ensures ev[0] == Tick
  {
    [Tick] + ProbeLoop(ProbeUri(port), probes, 0)
  }

  /** How many times `e` occurs in `s`. */
  function Occurrences(s: seq<Event>, e: Event): nat {
    if s == [] then 0 else (if s[0] == e then 1 else 0) + Occurrences(s[1..], e)
  }

  lemma {:induction false} OccurrencesAppend(a: seq<Event>, b: seq<Event>, e: Event)
    ensures Occurrences(a + b, e) == Occurrences(a, e) + Occurrences(b, e)
  {
    if a == [] {
      assert a + b == b;
    } else {
      assert (a + b)[1..] == a[1..] + b;
      OccurrencesAppend(a[1..], b, e);
    }
  }

  /** How many probes `s` records, whatever their outcome. */
  function CountProbes(s: seq<Event>): nat {
    if s == [] then 0 else (if s[0].Probe? then 1 else 0) + CountProbes(s[1..])
  }

  lemma {:induction false} CountProbesAppend(a: seq<Event>, b: seq<Event>)
    ensures CountProbes(a + b) == CountProbes(a) + CountProbes(b)
  {
    if a == [] {
      assert a + b == b;
    } else {
      assert (a + b)[1..] == a[1..] + b;
      CountProbesAppend(a[1..], b);
    }
  }

  /** A failed probe, whether `connect` or `get_lightd_info` failed,
      contributes itself and a tick, then the loop goes on with the counter
      one higher. */
  lemma FailedIteration(uri: GrpcConnector.Uri, probes: seq<ProbeOutcome>, from: nat)
    requires |probes| == MaxAttempts && from < MaxAttempts && probes[from] != Answered
    ensures ProbeLoop(uri, probes, from) == [Probe(uri, probes[from]), Tick] + ProbeLoop(uri, probes, from + 1)
    ensures FinalAttempts(probes, from) == FinalAttempts(probes, from + 1)
  {
  }

  /** The loop's steps, stated on the events still to come: a failed probe
      moves a probe and a tick to the events done; an answered probe or an
      exhausted counter ends the loop. */
  lemma LoopStepFailed(done: seq<Event>, uri: GrpcConnector.Uri, probes: seq<ProbeOutcome>, from: nat, all: seq<Event>)
    requires |probes| == MaxAttempts && from < MaxAttempts && probes[from] != Answered
    requires done + ProbeLoop(uri, probes, from) == all
    ensures (done + [Probe(uri, probes[from]), Tick]) + ProbeLoop(uri, probes, from + 1) == all
    ensures FinalAttempts(probes, from + 1) == FinalAttempts(probes, from)
  {
    FailedIteration(uri, probes, from);
    var step := [Probe(uri, probes[from]), Tick];
    assert done + (step + ProbeLoop(uri, probes, from + 1)) == (done + step) + ProbeLoop(uri, probes, from + 1);
  }

  lemma LoopStepAnswered(done: seq<Event>, uri: GrpcConnector.Uri, probes: seq<ProbeOutcome>, from: nat, all: seq<Event>)
    requires |probes| == MaxAttempts && from < MaxAttempts && probes[from] == Answered
    requires done + ProbeLoop(uri, probes, from) == all
    ensures done + [Probe(uri, Answered)] == all
    ensures FinalAttempts(probes, from) == from
  {
  }

  lemma LoopExhausted(done: seq<Event>, uri: GrpcConnector.Uri, probes: seq<ProbeOutcome>, all: seq<Event>)
    requires |probes| == MaxAttempts
    requires done + ProbeLoop(uri, probes, MaxAttempts) == all
    ensures done + [StoreOnline(false), ProcessExit(1)] == all
    ensures FinalAttempts(probes, MaxAttempts) == MaxAttempts
  {
  }

  /** The loop waits one tick after each failed probe and at no other time. */
  lemma {:induction false} ProbeLoopTicks(uri: GrpcConnector.Uri, probes: seq<ProbeOutcome>, from: nat)
    requires |probes| == MaxAttempts && from <= MaxAttempts
    ensures Occurrences(ProbeLoop(uri, probes, from), Tick) == FinalAttempts(probes, from) - from
    ensures var ev := ProbeLoop(uri, probes, from);
      forall i :: 0 <= i < |ev| && ev[i] == Tick ==> 0 < i && ev[i - 1].Probe? && ev[i - 1].outcome != Answered
    ensures var ev := ProbeLoop(uri, probes, from);
      forall i :: 0 <= i < |ev| && ev[i].Probe? && ev[i].outcome != Answered ==> i + 1 < |ev| && ev[i + 1] == Tick
    decreases MaxAttempts - from
  {
    var ev := ProbeLoop(uri, probes, from);
    if from == MaxAttempts {
      assert Occurrences(ev[1..], Tick) == 0 by { assert ev[1..][1..] == []; }
    } else if probes[from] == Answered {
      assert ev[1..] == [];
    } else {
      var head := [Probe(uri, probes[from]), Tick];
      FailedIteration(uri, probes, from);
      ProbeLoopTicks(uri, probes, from + 1);
      OccurrencesAppend(head, ProbeLoop(uri, probes, from + 1), Tick);
      assert Occurrences(head, Tick) == 1 by { assert head[1..][1..] == []; }
    }
  }

  /** One probe per iteration: the failed ones, plus the answered one if any. */
  lemma {:induction false} ProbeLoopProbes(uri: GrpcConnector.Uri, probes: seq<ProbeOutcome>, from: nat)
    requires |probes| == MaxAttempts && from <= MaxAttempts
    ensures var n := FinalAttempts(probes, from);
      CountProbes(ProbeLoop(uri, probes, from)) == (if n < MaxAttempts then n - from + 1 else MaxAttempts - from)
    decreases MaxAttempts - from
  {
    var ev := ProbeLoop(uri, probes, from);
    if from == MaxAttempts {
      assert CountProbes(ev[1..]) == 0 by { assert ev[1..][1..] == []; }
    } else if probes[from] == Answered {
      assert ev[1..] == [];
    } else {
      var head := [Probe(uri, probes[from]), Tick];
      FailedIteration(uri, probes, from);
      ProbeLoopProbes(uri, probes, from + 1);
      CountProbesAppend(head, ProbeLoop(uri, probes, from + 1));
      assert CountProbes(head) == 1 by { assert head[1..][1..] == []; }
    }
  }

  /** The loop stores `false` into the flag exactly when no probe answers. */
  lemma ProbeLoopFlag(uri: GrpcConnector.Uri, probes: seq<ProbeOutcome>, from: nat)
    requires |probes| == MaxAttempts && from <= MaxAttempts
    ensures StoreOnline(false) in ProbeLoop(uri, probes, from) <==> FinalAttempts(probes, from) == MaxAttempts
  {
  }

  /** The loop stores `false` into the flag exactly once when no probe
      answers, and never otherwise. */
  lemma {:induction false} ProbeLoopStoresOnce(uri: GrpcConnector.Uri, probes: seq<ProbeOutcome>, from: nat)
    requires |probes| == MaxAttempts && from <= MaxAttempts
    ensures Occurrences(ProbeLoop(uri, probes, from), StoreOnline(false))
            == (if FinalAttempts(probes, from) == MaxAttempts then 1 else 0)
    decreases MaxAttempts - from
  {
    var ev := ProbeLoop(uri, probes, from);
    if from == MaxAttempts {
      assert Occurrences(ev[1..], StoreOnline(false)) == 0 by { assert ev[1..][1..] == []; }
    } else if probes[from] == Answered {
      assert ev[1..] == [];
    } else {
      var head := [Probe(uri, probes[from]), Tick];
      FailedIteration(uri, probes, from);
      ProbeLoopStoresOnce(uri, probes, from + 1);
      OccurrencesAppend(head, ProbeLoop(uri, probes, from + 1), StoreOnline(false));
      assert Occurrences(head, StoreOnline(false)) == 0 by { assert head[1..][1..] == []; }
    }
  }

  /** The loop ends with the flag store and the exit when no probe answers,
      and with the answered probe otherwise. */
  lemma ProbeLoopLast(uri: GrpcConnector.Uri, probes: seq<ProbeOutcome>, from: nat)
    requires |probes| == MaxAttempts && from <= MaxAttempts
    ensures var ev, n := ProbeLoop(uri, probes, from), FinalAttempts(probes, from);
      && (n == MaxAttempts ==> |ev| >= 2 && ev[|ev| - 2] == StoreOnline(false) && ev[|ev| - 1] == ProcessExit(1))
      && (n < MaxAttempts ==> |ev| >= 1 && ev[|ev| - 1] == Probe(uri, Answered))
  {
  }

  /** Every probe of the loop is made at `uri`. */
  lemma ProbeLoopTargets(uri: GrpcConnector.Uri, probes: seq<ProbeOutcome>, from: nat)
    requires |probes| == MaxAttempts && from <= MaxAttempts
    ensures var ev := ProbeLoop(uri, probes, from);
      forall i :: 0 <= i < |ev| && ev[i].Probe? ==> ev[i].uri == uri
  {
  }

  /** The health check's timing: a tick before the first probe, at most
      three probes, one more tick per failed probe, so four ticks and three
      probes in all when every probe fails. */
  lemma WaitEventsCounts(port: u16, probes: seq<ProbeOutcome>)
    requires |probes| == MaxAttempts
    ensures var ev, n := WaitEvents(port, probes), FinalAttempts(probes, 0);
      && ev[0] == Tick
      && Occurrences(ev, Tick) == n + 1
      && CountProbes(ev) == (if WaitExit(probes) == Returned then n + 1 else MaxAttempts)
      && CountProbes(ev) <= MaxAttempts
      && (WaitExit(probes) != Returned ==> Occurrences(ev, Tick) == 4)
      && (forall i :: 0 <= i < |ev| && ev[i].Probe? ==> 0 < i && ev[i - 1] == Tick)
  {
    var rest := ProbeLoop(ProbeUri(port), probes, 0);
    ProbeLoopTicks(ProbeUri(port), probes, 0);
    ProbeLoopProbes(ProbeUri(port), probes, 0);
    CountProbesAppend([Tick], rest);
    OccurrencesAppend([Tick], rest, Tick);
  }

  /** How the health check ends: `online` is cleared exactly when no probe
      answers, and then the process exit is the last event, right after the
      store; otherwise the answered probe is the last event. */
  lemma WaitEventsEnd(port: u16, probes: seq<ProbeOutcome>)
    requires |probes| == MaxAttempts
    ensures var ev := WaitEvents(port, probes);
      && (StoreOnline(false) in ev <==> WaitExit(probes) != Returned)
      && Occurrences(ev, StoreOnline(false)) == (if WaitExit(probes) == Returned then 0 else 1)
      && (WaitExit(probes) != Returned ==> ev[|ev| - 2] == StoreOnline(false) && ev[|ev| - 1] == ProcessExit(1))
      && (WaitExit(probes) == Returned ==> ev[|ev| - 1] == Probe(ProbeUri(port), Answered))
  {
    var rest := ProbeLoop(ProbeUri(port), probes, 0);
    ProbeLoopFlag(ProbeUri(port), probes, 0);
    ProbeLoopLast(ProbeUri(port), probes, 0);
    ProbeLoopStoresOnce(ProbeUri(port), probes, 0);
    OccurrencesAppend([Tick], rest, StoreOnline(false));
    assert StoreOnline(false) in WaitEvents(port, probes) <==> StoreOnline(false) in rest;
  }

  /** Every probe of the health check targets `http://localhost:{port}/`. */
  lemma WaitEventsTargets(port: u16, probes: seq<ProbeOutcome>)
    requires |probes| == MaxAttempts
    ensures var ev := WaitEvents(port, probes);
      forall i :: 0 <= i < |ev| && ev[i].Probe? ==> ev[i].uri == ProbeUri(port)
  {
    var rest := ProbeLoop(ProbeUri(port), probes, 0);
    var ev := WaitEvents(port, probes);
    ProbeLoopTargets(ProbeUri(port), probes, 0);
    forall i | 0 <= i < |ev| && ev[i].Probe?
      ensures ev[i].uri == ProbeUri(port)
    {
      assert ev[i] == rest[i - 1];
    }
  }

  lemma FinalAttemptsSameAnswers(p: seq<ProbeOutcome>, q: seq<ProbeOutcome>, from: nat)
    requires |p| == MaxAttempts && |q| == MaxAttempts && from <= MaxAttempts
    requires forall j :: 0 <= j < MaxAttempts ==> (p[j] == Answered <==> q[j] == Answered)
    ensures FinalAttempts(p, from) == FinalAttempts(q, from)
  {
  }

  /** A failed connect and a failed `get_lightd_info` are handled alike:
      two runs whose probes answer at the same attempts end the same way,
      with as many events, ticks, probes and flag stores. */
  lemma FailureKindIrrelevant(port: u16, p: seq<ProbeOutcome>, q: seq<ProbeOutcome>)
    requires |p| == MaxAttempts && |q| == MaxAttempts
    requires forall j :: 0 <= j < MaxAttempts ==> (p[j] == Answered <==> q[j] == Answered)
    ensures WaitExit(p) == WaitExit(q)
    ensures |WaitEvents(port, p)| == |WaitEvents(port, q)|
    ensures Occurrences(WaitEvents(port, p), Tick) == Occurrences(WaitEvents(port, q), Tick)
    ensures CountProbes(WaitEvents(port, p)) == CountProbes(WaitEvents(port, q))
    ensures Occurrences(WaitEvents(port, p), StoreOnline(false)) == Occurrences(WaitEvents(port, q), StoreOnline(false))
  {
    FinalAttemptsSameAnswers(p, q, 0);
    WaitEventsCounts(port, p);
    WaitEventsCounts(port, q);
    WaitEventsEnd(port, p);
    WaitEventsEnd(port, q);
  }

  /** The port the health check probes: the proxy's own port, or
      lightwalletd's under `nym_poc`. */
  function HealthPort(build: Build, proxyPort: u16, lwdPort: u16): (port: u16)
    ensures build == Default ==> port == proxyPort
    ensures build == NymPoc ==> port == lwdPort
  {
    if build == Default then proxyPort else lwdPort
  }

  /** The events of the Nym start-up, which only the default build has and
      which only runs once the health check has returned. */
  function NymEvents(build: Build, health: Exit, nymConfPath: string): (ev: seq<Event>)
    ensures ev != [] <==> health == Returned && build == Default
    ensures ev != [] ==> ev[0] == SpawnNymServer(nymConfPath) && ev[|ev| - 1] == Sleep(2)
    ensures forall e :: e in ev ==> e == SpawnNymServer(nymConfPath) || e == Sleep(2)
  {
    if health == Returned && build == Default then [SpawnNymServer(nymConfPath), Sleep(2)] else []
  }

  /** The events of `spawn_proxy`. */
  function SpawnEvents(proxyPort: u16, lwdPort: u16, zebradPort: u16, nymConfPath: string,
                       build: Build, nodeOk: bool, probes: seq<ProbeOutcome>): (ev: seq<Event>)
    requires |probes| == MaxAttempts
    ensures 0 < |ev| && ev[0] == CheckNode(zebradPort)
    ensures !nodeOk ==> ev == [CheckNode(zebradPort)]
    ensures nodeOk ==> 1 < |ev| && ev[1] == SpawnGrpcServer(proxyPort, lwdPort, zebradPort)
  {
    if !nodeOk then [CheckNode(zebradPort)]
    else [CheckNode(zebradPort), SpawnGrpcServer(proxyPort, lwdPort, zebradPort)]
         + WaitEvents(HealthPort(build, proxyPort, lwdPort), probes)
         + NymEvents(build, WaitExit(probes), nymConfPath)
  }

  /** Every probe of `spawn_proxy` comes after the gRPC server spawn and
      targets the build's health port. */
  lemma SpawnProbesHealthPort(proxyPort: u16, lwdPort: u16, zebradPort: u16, nymConfPath: string,
                              build: Build, nodeOk: bool, probes: seq<ProbeOutcome>)
    requires |probes| == MaxAttempts
    ensures var ev := SpawnEvents(proxyPort, lwdPort, zebradPort, nymConfPath, build, nodeOk, probes);
      forall i :: 0 <= i < |ev| && ev[i].Probe? ==> 1 < i && ev[i].uri == ProbeUri(HealthPort(build, proxyPort, lwdPort))
  {
    var ev := SpawnEvents(proxyPort, lwdPort, zebradPort, nymConfPath, build, nodeOk, probes);
    if nodeOk {
      var port := HealthPort(build, proxyPort, lwdPort);
      var wait := WaitEvents(port, probes);
      var tail := NymEvents(build, WaitExit(probes), nymConfPath);
      assert ev == [CheckNode(zebradPort), SpawnGrpcServer(proxyPort, lwdPort, zebradPort)] + wait + tail;
      WaitEventsTargets(port, probes);
      forall k | 2 + |wait| <= k < |ev|
        ensures !ev[k].Probe?
      {
        assert ev[k] == tail[k - 2 - |wait|];
      }
      forall i | 0 <= i < |ev| && ev[i].Probe?
        ensures 1 < i && ev[i].uri == ProbeUri(port)
      {
        assert ev[i] == wait[i - 2];
      }
    }
  }

  /** The Nym server is spawned only in the default build, and only after
      the node check and the health check have both passed. */
  lemma SpawnNymOnlyWhenHealthy(proxyPort: u16, lwdPort: u16, zebradPort: u16, nymConfPath: string,
                                build: Build, nodeOk: bool, probes: seq<ProbeOutcome>)
    requires |probes| == MaxAttempts
    ensures var ev := SpawnEvents(proxyPort, lwdPort, zebradPort, nymConfPath, build, nodeOk, probes);
      SpawnNymServer(nymConfPath) in ev <==> nodeOk && WaitExit(probes) == Returned && build == Default
  {
    if nodeOk {
      var port := HealthPort(build, proxyPort, lwdPort);
      var wait := WaitEvents(port, probes);
      assert SpawnNymServer(nymConfPath) !in wait;
    }
  }

  /** The Nym start-up, the spawn and the 2-second sleep, comes after
      every probe of the health check. */
  lemma SpawnNymAfterProbes(proxyPort: u16, lwdPort: u16, zebradPort: u16, nymConfPath: string,
                            build: Build, nodeOk: bool, probes: seq<ProbeOutcome>)
    requires |probes| == MaxAttempts
    ensures var ev := SpawnEvents(proxyPort, lwdPort, zebradPort, nymConfPath, build, nodeOk, probes);
      forall i, j :: 0 <= i < |ev| && 0 <= j < |ev| && ev[i].Probe? && (ev[j].SpawnNymServer? || ev[j].Sleep?) ==> i < j
  {
    var ev := SpawnEvents(proxyPort, lwdPort, zebradPort, nymConfPath, build, nodeOk, probes);
    if nodeOk {
      var port := HealthPort(build, proxyPort, lwdPort);
      var rest := ProbeLoop(ProbeUri(port), probes, 0);
      var wait := WaitEvents(port, probes);
      var tail := NymEvents(build, WaitExit(probes), nymConfPath);
      assert ev == [CheckNode(zebradPort), SpawnGrpcServer(proxyPort, lwdPort, zebradPort)] + wait + tail;
      forall k | 0 <= k < 2 + |wait|
        ensures !ev[k].SpawnNymServer? && !ev[k].Sleep?
      {
        if k >= 3 {
          assert ev[k] == rest[k - 3];
          assert rest[k - 3] in rest;
        }
      }
      forall k | 2 + |wait| <= k < |ev|
        ensures !ev[k].Probe?
      {
        assert ev[k] == tail[k - 2 - |wait|];
      }
    }
  }

  /** `spawn_proxy`'s record once the gRPC server is spawned: the node
      check and the spawn, the health check, then the Nym start-up. */
  lemma SpawnEventsLaunched(pre: seq<Event>, started: seq<Event>, checked: seq<Event>,
                            proxyPort: u16, lwdPort: u16, zebradPort: u16, nymConfPath: string,
                            build: Build, probes: seq<ProbeOutcome>)
    requires |probes| == MaxAttempts
    requires started == pre + [CheckNode(zebradPort)] + [SpawnGrpcServer(proxyPort, lwdPort, zebradPort)]
    requires checked == started + WaitEvents(HealthPort(build, proxyPort, lwdPort), probes)
    ensures pre + SpawnEvents(proxyPort, lwdPort, zebradPort, nymConfPath, build, true, probes)
            == checked + NymEvents(build, WaitExit(probes), nymConfPath)
  {
  }

  /** The daemon process: the shared online flag, and the ghost record of
      what it has done. */
  class ProxyProcess {
    var online: bool
    ghost var trace: seq<Event>

    constructor (online: bool)
      ensures this.online == online && trace == []
    {
      this.online := online;
      trace := [];
    }

    /** `close_proxy`: stores `false` whatever the flag held, so calling it
        again leaves the flag as it is. */
    method CloseProxy()
      modifies this
      ensures !online
      ensures trace == old(trace) + [StoreOnline(false)]
    {
      online := false;
      trace := trace + [StoreOnline(false)];
    }

    /** `wait_on_grpc_startup`: probes the server on `port` until one probe
        answers or three have failed. */
    method WaitOnGrpcStartup(port: u16, probes: seq<ProbeOutcome>) returns (exit: Exit)
      requires |probes| == MaxAttempts
      modifies this
      ensures trace == old(trace) + WaitEvents(port, probes)
      ensures exit == WaitExit(probes)
      ensures exit == Returned ==> online == old(online)
      ensures exit != Returned ==> !online
    {
      var uri := ProbeUri(port);
      ghost var all := [Tick] + ProbeLoop(uri, probes, 0);
      var attempts: nat := 0;
      trace := trace + [Tick];
      ghost var done: seq<Event> := [Tick];
      while attempts < MaxAttempts
        invariant attempts <= MaxAttempts
        invariant trace == old(trace) + done
        invariant done + ProbeLoop(uri, probes, attempts) == all
        invariant FinalAttempts(probes, attempts) == FinalAttempts(probes, 0)
        invariant online == old(online)
        decreases MaxAttempts - attempts
      {
        var outcome := probes[attempts];
        if outcome == Answered {
          LoopStepAnswered(done, uri, probes, attempts, all);
          trace := trace + [Probe(uri, Answered)];
          exit := Returned;
          return;
        }
        // A failed connect and a failed `get_lightd_info` are handled alike.
        LoopStepFailed(done, uri, probes, attempts, all);
        done := done + [Probe(uri, outcome), Tick];
        trace := trace + [Probe(uri, outcome), Tick];
        attempts := attempts + 1;
      }
      LoopExhausted(done, uri, probes, all);
      online := false;
      exit := Exited(1);
      trace := trace + [StoreOnline(false), ProcessExit(1)];
    }

    /** `spawn_proxy`: checks the node, spawns the gRPC server, health-checks
        it and, in the default build, spawns the Nym server. `nodeOk` is
        whether the node check succeeds and `nymAddr` the address the Nym
        server reports. `handles` is the handle list when the call stops. */
    method SpawnProxy(proxyPort: u16, lwdPort: u16, zebradPort: u16, nymConfPath: string, build: Build,
                      nodeOk: bool, probes: seq<ProbeOutcome>, nymAddr: string)
      returns (handles: seq<Handle>, status: SpawnStatus)
      requires |probes| == MaxAttempts
      modifies this
      ensures trace == old(trace) + SpawnEvents(proxyPort, lwdPort, zebradPort, nymConfPath, build, nodeOk, probes)
      ensures status == NodeCheckPanicked <==> !nodeOk
      ensures !nodeOk ==> handles == [] && online == old(online)
      ensures nodeOk && WaitExit(probes) != Returned ==> status == ProcessExited(1) && handles == [GrpcServerTask] && !online
      ensures nodeOk && WaitExit(probes) == Returned ==>
        && online == old(online)
        && handles == (if build == Default then [GrpcServerTask, NymServerTask] else [GrpcServerTask])
        && status == Launched(if build == Default then Some(nymAddr) else None)
    {
      handles := [];
      trace := trace + [CheckNode(zebradPort)];
      if !nodeOk {
        status := NodeCheckPanicked;
        return;
      }
      trace := trace + [SpawnGrpcServer(proxyPort, lwdPort, zebradPort)];
      handles := handles + [GrpcServerTask];
      ghost var started := trace;
      var exit := WaitOnGrpcStartup(HealthPort(build, proxyPort, lwdPort), probes);
      SpawnEventsLaunched(old(trace), started, trace, proxyPort, lwdPort, zebradPort, nymConfPath, build, probes);
      if exit != Returned {
        status := ProcessExited(exit.code);
        return;
      }
      if build == Default {
        trace := trace + [SpawnNymServer(nymConfPath), Sleep(2)];
        handles := handles + [NymServerTask];
        status := Launched(Some(nymAddr));
      } else {
        status := Launched(None);
      }
    }
  }
}
