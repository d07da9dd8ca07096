/** RunDocker (pkg/librevm/vm.go) as a step machine: the main goroutine, the four service goroutines of its errgroup,
    the goroutine that waits for them, the readiness monitor, the network probe and the guest, in every interleaving.
    A process that dies (libkrun exits the process when the VM stops) simply makes no further steps. */
module Lifecycle {
  import opened Readiness
  import opened Wrappers

  /** The services in the order they are started: ignition, network stack, management API, Podman proxy. */
  const SERVICES := 4
  const PODMAN_PROXY := 3

  datatype Service = Waiting | Running | Returned(failed: bool)

  datatype Main =
    | BeforeInit
    | Selecting      // the last select
    | InVM           // inside StartVirtualMachine
    | AfterVM        // StartVirtualMachine has returned, vm.Cancel has not been called
    | WaitServices   // receiving from svcErrCh
    | Done(initialized: bool)

  /** Ignition's network probe. With gvproxy it asks at every tick until it has an answer, its context is done or it
      times out; with TSI there is nothing to ask. A request is not started on a context that is done, but one that is
      under way may still be answered. */
  datatype Probe = NotStarted | BetweenTicks | Asking | Answered | Over

  datatype Kind = VMStarting | PodmanReadyEvent | SSHReadyEvent | NetworkReadyEvent

  datatype Event =
    | Closed(c: Channel) | ProxyStarted | Booted | Emitted(kind: Kind) | ServiceReturned(i: nat) | CancelCalled | RunReturned

  datatype State = State(
    main: Main,
    services: seq<Service>,
    waiterDone: bool,       // svcErrCh holds the result of g.Wait
    cancelled: bool,        // vm.Cancel has been called, by anyone
    probe: Probe,
    closed: set<Channel>,
    monitoring: bool,
    seen: set<Kind>,        // what the monitor has marked ready
    booted: bool,
    trace: seq<Event>)

  datatype Action =
    | InitFails | InitSucceeds(tsi: bool)
    | ServiceReturns(i: nat, failed: bool)
    | ProxyGivesUp | ProxyStarts
    | WaiterFinishes
    | ProbeAsks | ProbeAnswered | ProbeUnanswered | ProbeGivesUp
    | ProbeSignals             // VNetHostReady
    | PostReady(c: Channel)    // the guest posts to /ready
    | CancelRun                // a signal, or the parent's exit
    | TakeCancelArm | TakeReadyArm | VMExits | MainCancels | MainReturns
    | MonitorSees(k: Kind) | MonitorStops

  const INIT := State(BeforeInit, [], false, false, NotStarted, {}, false, {}, false, [])

  function ChannelOf(k: Kind): Channel {
    match k
    case PodmanReadyEvent => PodmanReady
    case SSHReadyEvent => SSHReady
    case _ => VNetHostReady
  }

  /** The errgroup's context: cancelled by vm.Cancel, by a failed service, or by the end of g.Wait. */
  ghost predicate CtxDone(s: State) {
    s.cancelled || s.waiterDone || exists i :: 0 <= i < |s.services| && s.services[i] == Returned(true)
  }

  ghost predicate AllReturned(s: State) {
    |s.services| == SERVICES && forall i :: 0 <= i < SERVICES ==> s.services[i].Returned?
  }

  ghost predicate Enabled(s: State, a: Action) {
    match a
    case InitFails => s.main == BeforeInit
    case InitSucceeds(_) => s.main == BeforeInit
    case ServiceReturns(i, _) => i < |s.services| && s.services[i] == Running
    case ProxyGivesUp => |s.services| == SERVICES && s.services[PODMAN_PROXY] == Waiting && CtxDone(s)
    case ProxyStarts => |s.services| == SERVICES && s.services[PODMAN_PROXY] == Waiting && VNetHostReady in s.closed
    case WaiterFinishes => AllReturned(s) && !s.waiterDone
    case ProbeAsks => s.probe == BetweenTicks && !CtxDone(s)
    case ProbeAnswered => s.probe == Asking
    case ProbeUnanswered => s.probe == Asking
    case ProbeGivesUp => s.probe == BetweenTicks
    case ProbeSignals => s.probe == Answered
    case PostReady(c) => s.booted && c != VNetHostReady
    case CancelRun => s.main != BeforeInit && s.main != Done(false)
    case TakeCancelArm => s.main == Selecting && CtxDone(s)
    case TakeReadyArm => s.main == Selecting && VNetHostReady in s.closed
    case VMExits => s.main == InVM
    case MainCancels => s.main == AfterVM
    case MainReturns => s.main == WaitServices && s.waiterDone
    case MonitorSees(k) => s.monitoring && k != VMStarting && ChannelOf(k) in s.closed && k !in s.seen
    case MonitorStops => s.monitoring && (CtxDone(s) || s.seen >= {PodmanReadyEvent, SSHReadyEvent, NetworkReadyEvent})
  }

  /** The effect of a step on everything but the trace. */
  ghost function Update(s: State, a: Action): State
    requires Enabled(s, a)
  {
    match a
    case InitFails => s.(main := Done(false))
    case InitSucceeds(tsi) =>
      s.(main := Selecting, services := [Running, Running, Running, Waiting], monitoring := true,
         probe := if tsi then Answered else BetweenTicks)
    case ServiceReturns(i, failed) => s.(services := s.services[i := Returned(failed)])
    case ProxyGivesUp => s.(services := s.services[PODMAN_PROXY := Returned(true)])
    case ProxyStarts => s.(services := s.services[PODMAN_PROXY := Running])
    case WaiterFinishes => s.(waiterDone := true)
    case ProbeAsks => s.(probe := Asking)
    case ProbeAnswered => s.(probe := Answered)
    case ProbeUnanswered => s.(probe := BetweenTicks)
    case ProbeGivesUp => s.(probe := Over)
    case ProbeSignals => s.(probe := Over, closed := s.closed + {VNetHostReady})
    case PostReady(c) => s.(closed := s.closed + {c})
    case CancelRun => s.(cancelled := true)
    case TakeCancelArm => s.(main := WaitServices)
    case TakeReadyArm => s.(main := InVM, booted := true)
    case VMExits => s.(main := AfterVM)
    case MainCancels => s.(main := WaitServices, cancelled := true)
    case MainReturns => s.(main := Done(true))
    case MonitorSees(k) => s.(seen := s.seen + {k})
    case MonitorStops => s.(monitoring := false)
  }

  /** What an observer records of a step. A second signal on a channel closes nothing. */
  function Records(s: State, a: Action): seq<Event> {
    match a
    case InitSucceeds(_) => [Emitted(VMStarting)]
    case ServiceReturns(i, _) => [ServiceReturned(i)]
    case ProxyGivesUp => [ServiceReturned(PODMAN_PROXY)]
    case ProxyStarts => [ProxyStarted]
    case ProbeSignals => if VNetHostReady in s.closed then [] else [Closed(VNetHostReady)]
    case PostReady(c) => if c in s.closed then [] else [Closed(c)]
    case CancelRun => [CancelCalled]
    case TakeReadyArm => [Booted]
    case MainCancels => [CancelCalled]
    case MainReturns => [RunReturned]
    case MonitorSees(k) => [Emitted(k)]
    case _ => []
  }

  ghost function Apply(s: State, a: Action): State
    requires Enabled(s, a)
  {
    Update(s, a).(trace := s.trace + Records(s, a))
  }

  ghost predicate IsRun(states: seq<State>, acts: seq<Action>) {
    && |states| == |acts| + 1
    && states[0] == INIT
    && forall i :: 0 <= i < |acts| ==> Enabled(states[i], acts[i]) && states[i + 1] == Apply(states[i], acts[i])
  }

  // --- Statements about traces ---------------------------------------------------------

  /** Every `b` has an `a` before it. */
  ghost predicate Before(tr: seq<Event>, a: Event, b: Event) {
    tr == [] ||
    var init, last := tr[..|tr| - 1], tr[|tr| - 1];
    Before(init, a, b) && (last == b ==> a in init)
  }

  ghost predicate AtMostOnce(tr: seq<Event>, e: Event) {
    tr == [] ||
    var init, last := tr[..|tr| - 1], tr[|tr| - 1];
    AtMostOnce(init, e) && (last == e ==> e !in init)
  }

  /** The same in terms of places in the trace. */
  lemma {:induction false} BeforeMeans(tr: seq<Event>, a: Event, b: Event, j: nat) returns (i: nat)
    requires Before(tr, a, b) && j < |tr| && tr[j] == b
    ensures i < j && tr[i] == a
  {
    var init := tr[..|tr| - 1];
    if j < |init| {
      i := BeforeMeans(init, a, b, j);
    } else {
      i :| 0 <= i < |init| && init[i] == a;
    }
  }

  lemma {:induction false} OnceMeans(tr: seq<Event>, e: Event, i: nat, j: nat)
    requires AtMostOnce(tr, e) && i < j < |tr| && tr[i] == e
    ensures tr[j] != e
  {
    var init := tr[..|tr| - 1];
    assert init[i] == e;
    if j < |init| {
      OnceMeans(init, e, i, j);
    }
  }

  lemma BeforeStep(tr: seq<Event>, a: Event, b: Event, e: Event)
    requires Before(tr, a, b) && (e == b ==> a in tr)
    ensures Before(tr + [e], a, b)
  {
    assert (tr + [e])[..|tr|] == tr;
  }

  lemma OnceStep(tr: seq<Event>, x: Event, e: Event)
    requires AtMostOnce(tr, x) && (e == x ==> x !in tr)
    ensures AtMostOnce(tr + [e], x)
  {
    assert (tr + [e])[..|tr|] == tr;
  }

  lemma BeforeIn(tr: seq<Event>, a: Event, b: Event)
    requires Before(tr, a, b) && b in tr
    ensures a in tr
  {
    var j :| 0 <= j < |tr| && tr[j] == b;
    var i := BeforeMeans(tr, a, b, j);
  }

  lemma {:induction false} BeforeChains(tr: seq<Event>, a: Event, b: Event, c: Event)
    requires Before(tr, a, b) && Before(tr, b, c)
    ensures Before(tr, a, c)
  {
    if tr != [] {
      var init, last := tr[..|tr| - 1], tr[|tr| - 1];
      BeforeChains(init, a, b, c);
      if last == c {
        BeforeIn(init, a, b);
      }
    }
  }

  // --- What every step keeps -------------------------------------------------------------

  ghost predicate Started(s: State) { |s.services| == SERVICES }

  /** Where RunDocker is, in terms of its services. */
  ghost predicate Flow(s: State) {
    && (Started(s) || (s.services == [] && !s.monitoring && s.probe == NotStarted))
    && (Started(s) <==> s.main != BeforeInit && s.main != Done(false))
    && (s.waiterDone ==> AllReturned(s))
    && (s.main == Done(true) ==> s.waiterDone)
  }

  /** The monitor stops only when it has seen everything or the context is done. */
  ghost predicate Watching(s: State) {
    Started(s) && !s.monitoring ==> CtxDone(s) || s.seen >= {PodmanReadyEvent, SSHReadyEvent, NetworkReadyEvent}
  }

  /** A VM that was booted and has stopped cancelled everything. */
  ghost predicate StoppedCancels(s: State) {
    s.booted && (s.main == WaitServices || s.main == Done(true)) ==> s.cancelled
  }

  /** What has been booted, signalled and seen. */
  ghost predicate Signals(s: State) {
    && (s.main == AfterVM || s.main == InVM ==> s.booted)
    && (s.main == BeforeInit || s.main == Selecting || s.main == Done(false) ==> !s.booted)
    && (s.booted ==> VNetHostReady in s.closed)
    && (forall c :: c in s.closed && c != VNetHostReady ==> s.booted)
    && (forall k :: k in s.seen ==> k != VMStarting && ChannelOf(k) in s.closed)
  }

  ghost predicate Control(s: State) { Flow(s) && Signals(s) && Watching(s) && StoppedCancels(s) }

  lemma StepKeepsFlow(s: State, a: Action)
    requires Flow(s) && Enabled(s, a)
    ensures Flow(Apply(s, a))
  {
  }

  lemma StepKeepsBooted(s: State, a: Action)
    requires Signals(s) && Enabled(s, a)
    ensures var t := Apply(s, a);
            && (t.main == AfterVM || t.main == InVM ==> t.booted)
            && (t.main == BeforeInit || t.main == Selecting || t.main == Done(false) ==> !t.booted)
            && (t.booted ==> VNetHostReady in t.closed)
  {
  }

  lemma ChannelStep(s: State, a: Action, c: Channel)
    requires Enabled(s, a)
    ensures (c in s.closed ==> c in Apply(s, a).closed) && (s.booted ==> Apply(s, a).booted)
    ensures c in Apply(s, a).closed && c !in s.closed && c != VNetHostReady ==> s.booted
  {
  }

  lemma SeenStep(s: State, a: Action, k: Kind)
    requires Enabled(s, a)
    ensures k in Apply(s, a).seen && k !in s.seen ==> k != VMStarting && ChannelOf(k) in s.closed
  {
  }

  lemma StepKeepsSignals(s: State, a: Action)
    requires Signals(s) && Enabled(s, a)
    ensures Signals(Apply(s, a))
  {
    var t := Apply(s, a);
    StepKeepsBooted(s, a);
    forall c | c in t.closed && c != VNetHostReady ensures t.booted { ChannelStep(s, a, c); }
    forall k | k in t.seen ensures k != VMStarting && ChannelOf(k) in t.closed {
      SeenStep(s, a, k);
      ChannelStep(s, a, ChannelOf(k));
    }
  }

  lemma FailedStays(s: State, a: Action, i: nat)
    requires Flow(s) && Enabled(s, a) && i < |s.services| && s.services[i] == Returned(true)
    ensures i < |Apply(s, a).services| && Apply(s, a).services[i] == Returned(true)
  {
  }

  lemma CtxStaysDone(s: State, a: Action)
    requires Flow(s) && Enabled(s, a) && CtxDone(s)
    ensures CtxDone(Apply(s, a))
  {
    if i :| 0 <= i < |s.services| && s.services[i] == Returned(true) {
      FailedStays(s, a, i);
    }
  }

  lemma StepKeepsWatching(s: State, a: Action)
    requires Flow(s) && Watching(s) && Enabled(s, a)
    ensures Watching(Apply(s, a))
  {
    if CtxDone(s) {
      CtxStaysDone(s, a);
    }
  }

  lemma StepKeepsCancel(s: State, a: Action)
    requires Signals(s) && StoppedCancels(s) && Enabled(s, a)
    ensures StoppedCancels(Apply(s, a))
  {
  }

  lemma StepKeepsControl(s: State, a: Action)
    requires Control(s) && Enabled(s, a)
    ensures Control(Apply(s, a))
  {
    StepKeepsFlow(s, a);
    StepKeepsSignals(s, a);
    StepKeepsWatching(s, a);
    StepKeepsCancel(s, a);
  }

  /** The state says what the trace says. */
  ghost predicate MirrorsSignals(s: State) {
    && (forall c :: c in s.closed <==> Closed(c) in s.trace)
    && (s.booted <==> Booted in s.trace)
    && (s.cancelled <==> CancelCalled in s.trace)
    && (forall k :: k != VMStarting ==> (k in s.seen <==> Emitted(k) in s.trace))
  }

  ghost predicate MirrorsServices(s: State) {
    && (forall i :: 0 <= i < |s.services| ==> (s.services[i].Returned? <==> ServiceReturned(i) in s.trace))
    && (s.services == [] ==> s.trace == [])
    && (RunReturned in s.trace ==> s.main == Done(true))
    && (Started(s) && s.services[PODMAN_PROXY] == Waiting ==> ProxyStarted !in s.trace)
  }

  ghost predicate Mirrors(s: State) { MirrorsSignals(s) && MirrorsServices(s) }

  lemma StepRecords(s: State, a: Action)
    requires Enabled(s, a)
    ensures forall e :: e in Apply(s, a).trace <==> e in s.trace || e in Records(s, a)
  {
  }

  lemma ChannelMirrored(s: State, a: Action, c: Channel)
    requires (c in s.closed <==> Closed(c) in s.trace) && Enabled(s, a)
    ensures c in Apply(s, a).closed <==> Closed(c) in Apply(s, a).trace
  {
    StepRecords(s, a);
  }

  lemma BootMirrored(s: State, a: Action)
    requires (s.booted <==> Booted in s.trace) && Enabled(s, a)
    ensures Apply(s, a).booted <==> Booted in Apply(s, a).trace
  {
    StepRecords(s, a);
  }

  lemma CancelMirrored(s: State, a: Action)
    requires (s.cancelled <==> CancelCalled in s.trace) && Enabled(s, a)
    ensures Apply(s, a).cancelled <==> CancelCalled in Apply(s, a).trace
  {
    StepRecords(s, a);
  }

  lemma EventMirrored(s: State, a: Action, k: Kind)
    requires k != VMStarting && (k in s.seen <==> Emitted(k) in s.trace) && Enabled(s, a)
    ensures k in Apply(s, a).seen <==> Emitted(k) in Apply(s, a).trace
  {
    StepRecords(s, a);
  }

  lemma StepMirrorsSignals(s: State, a: Action)
    requires MirrorsSignals(s) && Enabled(s, a)
    ensures MirrorsSignals(Apply(s, a))
  {
    var t := Apply(s, a);
    forall c ensures c in t.closed <==> Closed(c) in t.trace { ChannelMirrored(s, a, c); }
    BootMirrored(s, a);
    CancelMirrored(s, a);
    forall k | k != VMStarting ensures k in t.seen <==> Emitted(k) in t.trace { EventMirrored(s, a, k); }
  }

  lemma ServiceMirrored(s: State, a: Action, i: nat)
    requires Control(s) && MirrorsServices(s) && Enabled(s, a) && i < |Apply(s, a).services|
    ensures Apply(s, a).services[i].Returned? <==> ServiceReturned(i) in Apply(s, a).trace
  {
    StepRecords(s, a);
    if |s.services| == 0 {
      assert s.trace == [];
    } else {
      assert s.services[i].Returned? <==> ServiceReturned(i) in s.trace;
    }
  }

  lemma RestMirrored(s: State, a: Action)
    requires Control(s) && MirrorsServices(s) && Enabled(s, a)
    ensures var t := Apply(s, a);
            && (t.services == [] ==> t.trace == [])
            && (RunReturned in t.trace ==> t.main == Done(true))
            && (Started(t) && t.services[PODMAN_PROXY] == Waiting ==> ProxyStarted !in t.trace)
  {
    StepRecords(s, a);
  }

  lemma StepMirrorsServices(s: State, a: Action)
    requires Control(s) && MirrorsServices(s) && Enabled(s, a)
    ensures MirrorsServices(Apply(s, a))
  {
    var t := Apply(s, a);
    forall i | 0 <= i < |t.services| ensures t.services[i].Returned? <==> ServiceReturned(i) in t.trace {
      ServiceMirrored(s, a, i);
    }
    RestMirrored(s, a);
  }

  /** The promises of RunDocker. */
  ghost predicate Promises(tr: seq<Event>) {
    && AtMostOnce(tr, Booted) && AtMostOnce(tr, ProxyStarted) && AtMostOnce(tr, RunReturned)
    && (forall c :: AtMostOnce(tr, Closed(c)))
    && (forall k :: AtMostOnce(tr, Emitted(k)))
    && Before(tr, Closed(VNetHostReady), Booted)
    && Before(tr, Closed(VNetHostReady), ProxyStarted)
    && (forall c :: c != VNetHostReady ==> Before(tr, Booted, Closed(c)))
    && (forall k :: k != VMStarting ==> Before(tr, Closed(ChannelOf(k)), Emitted(k)))
    && (forall i: nat :: i < SERVICES ==> Before(tr, ServiceReturned(i), RunReturned) && AtMostOnce(tr, ServiceReturned(i)))
  }

  lemma RecordKeepsPromises(s: State, a: Action, e: Event)
    requires Control(s) && Mirrors(s) && Promises(s.trace) && Enabled(s, a) && Records(s, a) == [e]
    ensures Promises(s.trace + [e])
  {
    var tr := s.trace;
    OnceStep(tr, Booted, e);
    OnceStep(tr, ProxyStarted, e);
    OnceStep(tr, RunReturned, e);
    BeforeStep(tr, Closed(VNetHostReady), Booted, e);
    BeforeStep(tr, Closed(VNetHostReady), ProxyStarted, e);
    forall c ensures AtMostOnce(tr + [e], Closed(c)) { OnceStep(tr, Closed(c), e); }
    forall c | c != VNetHostReady ensures Before(tr + [e], Booted, Closed(c)) { BeforeStep(tr, Booted, Closed(c), e); }
    forall k ensures AtMostOnce(tr + [e], Emitted(k)) { OnceStep(tr, Emitted(k), e); }
    forall k | k != VMStarting ensures Before(tr + [e], Closed(ChannelOf(k)), Emitted(k)) {
      BeforeStep(tr, Closed(ChannelOf(k)), Emitted(k), e);
    }
    forall i: nat | i < SERVICES
      ensures Before(tr + [e], ServiceReturned(i), RunReturned) && AtMostOnce(tr + [e], ServiceReturned(i))
    {
      BeforeStep(tr, ServiceReturned(i), RunReturned, e);
      OnceStep(tr, ServiceReturned(i), e);
    }
  }

  lemma {:induction false} RunKeepsPromises(states: seq<State>, acts: seq<Action>, k: nat)
    requires IsRun(states, acts) && k < |states|
    ensures Control(states[k]) && Mirrors(states[k]) && Promises(states[k].trace)
  {
    if k > 0 {
      RunKeepsPromises(states, acts, k - 1);
      var s, a := states[k - 1], acts[k - 1];
      StepKeepsControl(s, a);
      StepMirrorsSignals(s, a);
      StepMirrorsServices(s, a);
      if Records(s, a) != [] {
        RecordKeepsPromises(s, a, Records(s, a)[0]);
      } else {
        assert s.trace + [] == s.trace;
      }
    }
  }

  // --- The promises, one by one ------------------------------------------------------------

  /** RunDocker, once initialized, returns only after all four services have, and if the VM was booted only after
      everything was cancelled. */
  lemma ReturnsAfterServices(states: seq<State>, acts: seq<Action>, k: nat)
    requires IsRun(states, acts) && k < |states|
    ensures states[k].main == Done(true) ==> AllReturned(states[k])
    ensures forall i: nat :: i < SERVICES ==> Before(states[k].trace, ServiceReturned(i), RunReturned)
    ensures states[k].main == Done(true) && Booted in states[k].trace ==> CancelCalled in states[k].trace
  {
    RunKeepsPromises(states, acts, k);
  }

  /** The VM boots at most once, and it and the Podman proxy start only after VNetHostReady is closed. */
  lemma BootsOnceAfterNetwork(states: seq<State>, acts: seq<Action>, k: nat)
    requires IsRun(states, acts) && k < |states|
    ensures AtMostOnce(states[k].trace, Booted)
    ensures Before(states[k].trace, Closed(VNetHostReady), Booted)
    ensures Before(states[k].trace, Closed(VNetHostReady), ProxyStarted)
    ensures forall c :: AtMostOnce(states[k].trace, Closed(c))
  {
    RunKeepsPromises(states, acts, k);
  }

  /** EventPodmanReady is emitted at most once, after PodmanReady was closed, which was after the VM was booted, which
      was after VNetHostReady was closed; likewise EventSSHReady with SSHReady. EventNetworkReady follows VNetHostReady. */
  lemma ReadyEventsFollowBoot(states: seq<State>, acts: seq<Action>, k: nat)
    requires IsRun(states, acts) && k < |states|
    ensures var tr := states[k].trace;
            && (forall e :: AtMostOnce(tr, Emitted(e)))
            && Before(tr, Closed(PodmanReady), Emitted(PodmanReadyEvent)) && Before(tr, Closed(SSHReady), Emitted(SSHReadyEvent))
            && Before(tr, Booted, Emitted(PodmanReadyEvent)) && Before(tr, Booted, Emitted(SSHReadyEvent))
            && Before(tr, Closed(VNetHostReady), Emitted(PodmanReadyEvent))
            && Before(tr, Closed(VNetHostReady), Emitted(NetworkReadyEvent))
  {
    RunKeepsPromises(states, acts, k);
    var tr := states[k].trace;
    assert Before(tr, Closed(ChannelOf(PodmanReadyEvent)), Emitted(PodmanReadyEvent));
    assert Before(tr, Closed(ChannelOf(SSHReadyEvent)), Emitted(SSHReadyEvent));
    assert Before(tr, Closed(ChannelOf(NetworkReadyEvent)), Emitted(NetworkReadyEvent));
    BeforeChains(tr, Booted, Closed(PodmanReady), Emitted(PodmanReadyEvent));
    BeforeChains(tr, Booted, Closed(SSHReady), Emitted(SSHReadyEvent));
    BeforeChains(tr, Closed(VNetHostReady), Booted, Emitted(PodmanReadyEvent));
  }

  /** While the monitor runs, a closed channel that has not been reported enables the step that records its event, and
      nothing else enables or records it. */
  lemma MonitorReports(s: State, a: Action)
    requires s.monitoring
    ensures PodmanReady in s.closed && PodmanReadyEvent !in s.seen <==> Enabled(s, MonitorSees(PodmanReadyEvent))
    ensures SSHReady in s.closed && SSHReadyEvent !in s.seen <==> Enabled(s, MonitorSees(SSHReadyEvent))
    ensures VNetHostReady in s.closed && NetworkReadyEvent !in s.seen <==> Enabled(s, MonitorSees(NetworkReadyEvent))
    ensures Records(s, a) == [Emitted(PodmanReadyEvent)] <==> a == MonitorSees(PodmanReadyEvent)
    ensures Records(s, a) == [Emitted(SSHReadyEvent)] <==> a == MonitorSees(SSHReadyEvent)
    ensures Records(s, a) == [Emitted(NetworkReadyEvent)] <==> a == MonitorSees(NetworkReadyEvent)
  {
  }

  /** The monitor does not stop early: unless the run's context is done, it has emitted all three readiness events. */
  lemma MonitorStaysOn(states: seq<State>, acts: seq<Action>, k: nat)
    requires IsRun(states, acts) && k < |states| && Started(states[k]) && !states[k].monitoring && !CtxDone(states[k])
    ensures Emitted(PodmanReadyEvent) in states[k].trace && Emitted(SSHReadyEvent) in states[k].trace
    ensures Emitted(NetworkReadyEvent) in states[k].trace
  {
    RunKeepsPromises(states, acts, k);
  }

  /** RunDocker's select is released by a cancel, by the failure of any service, or by the end of all of them. */
  lemma CancelArmReady(states: seq<State>, acts: seq<Action>, k: nat)
    requires IsRun(states, acts) && k < |states| && states[k].main == Selecting
    ensures Enabled(states[k], TakeCancelArm) <==>
      || CancelCalled in states[k].trace
      || (exists i :: 0 <= i < |states[k].services| && states[k].services[i] == Returned(true))
      || states[k].waiterDone
  {
    RunKeepsPromises(states, acts, k);
  }

  lemma AnsweredStep(s: State, a: Action)
    requires Enabled(s, a) && Apply(s, a).probe == Answered
    ensures s.probe == Answered || a == ProbeAnswered || a == InitSucceeds(true)
  {
    assert Update(s, a).probe == Answered;
    if !a.InitSucceeds? && !a.ProbeAsks? && !a.ProbeAnswered? && !a.ProbeUnanswered? && !a.ProbeGivesUp? && !a.ProbeSignals? {
      assert Update(s, a).probe == s.probe;
    }
  }

  /** The network is signalled only once gvproxy has answered, except with TSI. */
  lemma {:induction false} AnsweredMeans(states: seq<State>, acts: seq<Action>, k: nat) returns (j: nat)
    requires IsRun(states, acts) && k < |states| && states[k].probe == Answered
    ensures j < k && (acts[j] == ProbeAnswered || acts[j] == InitSucceeds(true))
  {
    j := k - 1;
    AnsweredStep(states[j], acts[j]);
    if states[j].probe == Answered {
      j := AnsweredMeans(states, acts, j);
    }
  }

  // --- Booting and cancelling -----------------------------------------------------------------

  /** The host's network may still come up: it has, or the probe has its answer, waits for one, or can still ask. */
  ghost predicate NetworkPossible(s: State) {
    VNetHostReady in s.closed || s.probe in {Answered, Asking} || (s.probe == BetweenTicks && !CtxDone(s))
  }

  /** RunDocker has not left its last select, and something may still make its ready arm ready. */
  ghost predicate Undecided(s: State) {
    s.main == BeforeInit || (s.main == Selecting && NetworkPossible(s))
  }

  lemma Extend(states: seq<State>, acts: seq<Action>, a: Action) returns (states': seq<State>, acts': seq<Action>)
    requires IsRun(states, acts) && Enabled(states[|acts|], a)
    ensures IsRun(states', acts') && states <= states' && acts' == acts + [a]
    ensures states'[|acts'|] == Apply(states[|acts|], a)
  {
    states', acts' := states + [Apply(states[|acts|], a)], acts + [a];
  }

  lemma NetworkStaysDown(s: State, a: Action)
    requires Flow(s) && Enabled(s, a) && s.main != BeforeInit && !NetworkPossible(s)
    ensures !NetworkPossible(Apply(s, a))
  {
    if CtxDone(s) {
      CtxStaysDone(s, a);
    }
  }

  lemma MainStep(s: State, a: Action)
    requires Enabled(s, a)
    ensures Apply(s, a).main == BeforeInit ==> s.main == BeforeInit
    ensures Apply(s, a).main == Selecting ==> s.main == Selecting || s.main == BeforeInit
    ensures a == TakeReadyArm ==> s.main == Selecting && VNetHostReady in s.closed
  {
  }

  lemma DecidedStep(s: State, a: Action)
    requires Flow(s) && Enabled(s, a) && !Undecided(s)
    ensures !Undecided(Apply(s, a)) && a != TakeReadyArm
  {
    MainStep(s, a);
    if !NetworkPossible(s) {
      NetworkStaysDown(s, a);
    }
  }

  lemma DecidedAfter(states: seq<State>, acts: seq<Action>, k: nat)
    requires IsRun(states, acts) && k < |acts| && !Undecided(states[k])
    ensures !Undecided(states[k + 1]) && acts[k] != TakeReadyArm
  {
    RunKeepsPromises(states, acts, k);
    DecidedStep(states[k], acts[k]);
  }

  lemma DecidedForGood(states: seq<State>, acts: seq<Action>, i: nat, k: nat)
    requires IsRun(states, acts) && i <= k < |acts| && !Undecided(states[i])
    ensures !Undecided(states[k]) && acts[k] != TakeReadyArm
  {
    var flags := seq(|states|, j requires 0 <= j < |states| => !Undecided(states[j]));
    forall j | 0 <= j < |flags| - 1 && flags[j] ensures flags[j + 1] {
      DecidedAfter(states, acts, j);
    }
    Carried(flags, i, k);
    DecidedAfter(states, acts, k);
  }

  /** Some continuation of the run boots the VM. */
  ghost predicate CanStillBoot(states: seq<State>, acts: seq<Action>) {
    exists st, ac :: IsRun(st, ac) && states <= st && acts <= ac && |acts| < |ac| && ac[|ac| - 1] == TakeReadyArm
  }

  /** The probe asks if it has to, is answered, and signals. */
  lemma BringUpNetwork(states: seq<State>, acts: seq<Action>) returns (st: seq<State>, ac: seq<Action>)
    requires IsRun(states, acts) && NetworkPossible(states[|acts|])
    ensures IsRun(st, ac) && states <= st && acts <= ac
    ensures st[|ac|].main == states[|acts|].main && VNetHostReady in st[|ac|].closed
  {
    st, ac := states, acts;
    if VNetHostReady !in st[|ac|].closed {
      if st[|ac|].probe == BetweenTicks {
        st, ac := Extend(st, ac, ProbeAsks);
      }
      if st[|ac|].probe == Asking {
        st, ac := Extend(st, ac, ProbeAnswered);
      }
      st, ac := Extend(st, ac, ProbeSignals);
    }
  }

  lemma UndecidedCanBoot(states: seq<State>, acts: seq<Action>)
    requires IsRun(states, acts) && Undecided(states[|acts|])
    ensures CanStillBoot(states, acts)
  {
    var st, ac := states, acts;
    if st[|ac|].main == BeforeInit {
      st, ac := Extend(st, ac, InitSucceeds(true));
    }
    st, ac := BringUpNetwork(st, ac);
    st, ac := Extend(st, ac, TakeReadyArm);
    assert ac[|ac| - 1] == TakeReadyArm;
  }

  /** A boot can still follow exactly as long as RunDocker is in its last select, or before it, and the network is up
      or can still come up: cancelling ends that only between two requests of the probe. */
  lemma BootPossibleIff(states: seq<State>, acts: seq<Action>)
    requires IsRun(states, acts)
    ensures CanStillBoot(states, acts) <==> Undecided(states[|acts|])
  {
    if Undecided(states[|acts|]) {
      UndecidedCanBoot(states, acts);
    } else if CanStillBoot(states, acts) {
      var st, ac :| IsRun(st, ac) && states <= st && acts <= ac && |acts| < |ac| && ac[|ac| - 1] == TakeReadyArm;
      DecidedForGood(st, ac, |acts|, |ac| - 1);
    }
  }

  lemma CancelledWhileAsking() returns (states: seq<State>, acts: seq<Action>)
    ensures IsRun(states, acts)
    ensures var s := states[|acts|];
            s.main == Selecting && s.probe == Asking && s.cancelled && s.closed == {} && s.trace == [Emitted(VMStarting), CancelCalled]
  {
    states, acts := Extend([INIT], [], InitSucceeds(false));
    states, acts := Extend(states, acts, ProbeAsks);
    states, acts := Extend(states, acts, CancelRun);
  }

  /** A run may boot the VM although it has already been cancelled: with both arms of the last select ready,
      either may be taken. */
  lemma MayBootAfterCancel() returns (states: seq<State>, acts: seq<Action>)
    ensures IsRun(states, acts)
    ensures states[|acts|].trace == [Emitted(VMStarting), CancelCalled, Closed(VNetHostReady), Booted]
  {
    states, acts := CancelledWhileAsking();
    states, acts := Extend(states, acts, ProbeAnswered);
    states, acts := Extend(states, acts, ProbeSignals);
    states, acts := Extend(states, acts, TakeReadyArm);
  }
}
