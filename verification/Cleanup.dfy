/** The cleanup stack (pkg/system/callback.go) and its use by buildMachine, VM.init and VM.Close
    (pkg/librevm/machine.go, pkg/librevm/vm.go). */
module Cleanup {
  import Events

  function Reverse<F>(s: seq<F>): (r: seq<F>)
    ensures |r| == |s| && forall i :: 0 <= i < |s| ==> r[i] == s[|s| - 1 - i]
  {
    if s == [] then [] else Reverse(s[1..]) + [s[0]]
  }

  class CleanupCallback<F> {
    var funcs: seq<F>
    /** Every callback run so far, in order. */
    ghost var ran: seq<F>

    constructor ()
      ensures funcs == [] && ran == []
    {
      funcs := [];
      ran := [];
    }

    method Add(f: F)
      modifies this
      ensures funcs == old(funcs) + [f] && ran == old(ran)
    {
      funcs := funcs + [f];
    }

    /** Claims what is pending and runs it, last added first. */
    method Clean()
      modifies this
      ensures funcs == [] && ran == old(ran) + Reverse(old(funcs))
    {
      var claimed := Reverse(funcs);
      funcs := [];
      var i := 0;
      while i < |claimed|
        invariant 0 <= i <= |claimed| && funcs == []
        invariant ran == old(ran) + claimed[..i]
      {
        assert claimed[..i + 1] == claimed[..i] + [claimed[i]];
        ran := ran + [claimed[i]];
        i := i + 1;
      }
      assert claimed[..i] == claimed;
    }

    method CleanIfErr(failed: bool)
      modifies this
      ensures !failed ==> funcs == old(funcs) && ran == old(ran)
      ensures failed ==> funcs == [] && ran == old(ran) + Reverse(old(funcs))
    {
      if failed {
        Clean();
      }
    }
  }

  // --- A machine's two callbacks ------------------------------------------------

  datatype Teardown = UnlockAndUnlink | RemoveWorkspace

  /** What buildMachine pushes once setupWorkspace has returned, in order. */
  const PUSHED := [UnlockAndUnlink, RemoveWorkspace]

  /** The steps of buildMachine that can fail once the workspace is locked, in order. */
  datatype Stage =
    | ConfigureSSH | WithResources | ConfigureNetwork | ApplySystemProxy | BuiltInRootfs | MountUserHome
    | ConfigurePodman | VarDisk | UserDisks | UserMounts | ForwardRules | ForwardRoutes | GuestAgent | VMCtlAPI

  const STAGES := [
    ConfigureSSH, WithResources, ConfigureNetwork, ApplySystemProxy, BuiltInRootfs, MountUserHome,
    ConfigurePodman, VarDisk, UserDisks, UserMounts, ForwardRules, ForwardRoutes, GuestAgent, VMCtlAPI]

  /** What may go wrong during one session, up to the point where the VM would run. */
  datatype Faults = Faults(mode: bool, workspace: bool, stages: set<Stage>, symlinks: bool, provider: bool)

  predicate ReachesLock(f: Faults) { !f.mode && !f.workspace }

  predicate StagesSucceed(f: Faults) { forall k :: 0 <= k < |STAGES| ==> STAGES[k] !in f.stages }

  lemma StageAt(stage: Stage) returns (i: nat)
    ensures i < |STAGES| && STAGES[i] == stage
  {
    i := match stage
      case ConfigureSSH => 0
      case WithResources => 1
      case ConfigureNetwork => 2
      case ApplySystemProxy => 3
      case BuiltInRootfs => 4
      case MountUserHome => 5
      case ConfigurePodman => 6
      case VarDisk => 7
      case UserDisks => 8
      case UserMounts => 9
      case ForwardRules => 10
      case ForwardRoutes => 11
      case GuestAgent => 12
      case VMCtlAPI => 13;
  }

  /** The list leaves no stage out. */
  lemma EveryStageCounts(f: Faults)
    ensures StagesSucceed(f) <==> f.stages == {}
  {
    if stage :| stage in f.stages {
      var i := StageAt(stage);
      assert STAGES[i] in f.stages;
    }
  }

  const TORN_DOWN := [RemoveWorkspace, UnlockAndUnlink]

  method BuildMachine(f: Faults) returns (ok: bool, c: CleanupCallback<Teardown>)
    ensures fresh(c)
    ensures ok <==> ReachesLock(f) && StagesSucceed(f)
    ensures ok ==> c.funcs == PUSHED && c.ran == []
    ensures !ok ==> c.funcs == [] && c.ran == if ReachesLock(f) then TORN_DOWN else []
  {
    c := new CleanupCallback();
    ok := false;
    if f.mode {
      return; // unsupported run mode: the stack does not exist yet
    }
    if f.workspace {
      c.CleanIfErr(true); // setupWorkspace failed: nothing was pushed
      return;
    }
    c.Add(UnlockAndUnlink);
    c.Add(RemoveWorkspace);
    ok := true;
    var i := 0;
    while i < |STAGES| && ok
      invariant 0 <= i <= |STAGES|
      invariant c.funcs == PUSHED && c.ran == []
      invariant ok <==> forall k :: 0 <= k < i ==> STAGES[k] !in f.stages
      decreases |STAGES| - i
    {
      ok := STAGES[i] !in f.stages;
      i := i + 1;
    }
    c.CleanIfErr(!ok);
    assert Reverse(PUSHED) == TORN_DOWN;
  }

  class VM {
    const dispatcher: Events.EventDispatcher
    var cleanup: CleanupCallback?<Teardown>

    /** New registers one reporter. */
    constructor (reporter: Events.Reporter)
      ensures cleanup == null && fresh(dispatcher)
      ensures dispatcher.reporters == [reporter] && !dispatcher.closed && dispatcher.history == []
    {
      cleanup := null;
      dispatcher := new Events.EventDispatcher();
      new;
      dispatcher.AddReporter(0, reporter);
    }

    /** VM.init: a failure after buildMachine tears down what was built and keeps no cleanup. */
    method Init(f: Faults) returns (ok: bool, ghost c: CleanupCallback<Teardown>)
      requires cleanup == null
      modifies this
      ensures fresh(c)
      ensures ok <==> ReachesLock(f) && StagesSucceed(f) && !f.symlinks && !f.provider
      ensures ok ==> cleanup == c && c.funcs == PUSHED && c.ran == []
      ensures !ok ==> cleanup == null && c.funcs == [] && c.ran == if ReachesLock(f) then TORN_DOWN else []
    {
      var stack: CleanupCallback<Teardown>;
      ok, stack := BuildMachine(f);
      c := stack;
      if !ok {
        return;
      }
      assert Reverse(PUSHED) == TORN_DOWN;
      if f.symlinks || f.provider {
        stack.Clean();
        ok := false;
        return;
      }
      cleanup := stack;
    }

    /** Runs what is pending, then closes the event dispatcher. */
    method Close()
      modifies this, cleanup, dispatcher
      ensures cleanup == old(cleanup) && dispatcher.closed
      ensures cleanup != null ==> cleanup.funcs == [] && cleanup.ran == old(cleanup.ran) + Reverse(old(cleanup.funcs))
      ensures dispatcher.history == old(dispatcher.history) +
        if old(dispatcher.closed) then [] else Events.CloseAll(0, old(dispatcher.reporters))
    {
      if cleanup != null {
        cleanup.Clean();
      }
      dispatcher.Close(0);
    }
  }

  /** One process: New, RunDocker's init, and Close called any positive number of times. Whatever fails, the
      workspace is removed and then the lock released, exactly once if the lock was taken and not at all if not, and
      the reporter is closed exactly once. */
  method RunSession(f: Faults, reporter: Events.Reporter, closes: nat)
    returns (booted: bool, ghost ran: seq<Teardown>, ghost seen: seq<Events.Obs>)
    requires closes > 0
    ensures booted <==> ReachesLock(f) && StagesSucceed(f) && !f.symlinks && !f.provider
    ensures ran == if ReachesLock(f) then TORN_DOWN else []
    ensures seen == [Events.CloseBegin(0, reporter), Events.CloseEnd(0, reporter)]
  {
    var vm := new VM(reporter);
    ghost var d := vm.dispatcher;
    ghost var c;
    booted, c := vm.Init(f);
    assert Reverse(PUSHED) == TORN_DOWN;
    var i := 0;
    while i < closes
      invariant 0 <= i <= closes
      invariant vm.cleanup == if booted then c else null
      invariant !booted ==> c.funcs == [] && c.ran == if ReachesLock(f) then TORN_DOWN else []
      invariant booted && i == 0 ==> c.funcs == PUSHED && c.ran == []
      invariant booted && i > 0 ==> c.funcs == [] && c.ran == TORN_DOWN
      invariant d.closed <==> i > 0
      invariant i == 0 ==> d.reporters == [reporter] && d.history == []
      invariant i > 0 ==> d.history == Events.CloseAll(0, [reporter])
      modifies vm, c, d
    {
      vm.Close();
      i := i + 1;
    }
    Events.CloseAllAt(0, [reporter], 0);
    ran, seen := c.ran, d.history;
  }

  // --- Add and clean by many threads ----------------------------------------------

  /** One call of clean: the callbacks it claimed, in running order, and how many it has run. */
  datatype Call = Call(batch: seq<nat>, done: nat)

  /** Callbacks are named by the order in which Add appended them. */
  datatype State = State(added: nat, pending: seq<nat>, calls: seq<Call>, log: seq<nat>)

  datatype Action = DoAdd | Claim | RunNext(call: nat)

  const INIT := State(0, [], [], [])

  predicate Enabled(s: State, a: Action) {
    match a
    case DoAdd => true
    case Claim => true
    case RunNext(c) => c < |s.calls| && s.calls[c].done < |s.calls[c].batch|
  }

  function Apply(s: State, a: Action): State
    requires Enabled(s, a)
  {
    match a
    case DoAdd => s.(added := s.added + 1, pending := s.pending + [s.added])
    case Claim => s.(pending := [], calls := s.calls + [Call(Reverse(s.pending), 0)])
    case RunNext(c) =>
      var call := s.calls[c];
      s.(calls := s.calls[c := call.(done := call.done + 1)], log := s.log + [call.batch[call.done]])
  }

  ghost predicate IsRun(states: seq<State>, acts: seq<Action>) {
    && |states| == |acts| + 1
    && states[0] == INIT
    && forall i :: 0 <= i < |acts| ==> Enabled(states[i], acts[i]) && states[i + 1] == Apply(states[i], acts[i])
  }

  /** The first callback that is not claimed before call `c`. */
  ghost function Start(calls: seq<Call>, c: nat): nat
    requires c <= |calls|
  {
    if c == 0 then 0 else Start(calls, c - 1) + |calls[c - 1].batch|
  }

  /** The claims cut the Add order into consecutive stretches, one per call, each reversed; what is left is
      pending, in Add order. */
  ghost predicate Partitioned(s: State) {
    && s.added == Start(s.calls, |s.calls|) + |s.pending|
    && (forall i :: 0 <= i < |s.pending| ==> s.pending[i] == Start(s.calls, |s.calls|) + i)
    && (forall c, i :: 0 <= c < |s.calls| && 0 <= i < |s.calls[c].batch| ==>
          s.calls[c].batch[i] == Start(s.calls, c) + |s.calls[c].batch| - 1 - i)
  }

  ghost predicate HasRun(s: State, x: nat) {
    exists c, i :: 0 <= c < |s.calls| && 0 <= i < s.calls[c].done && i < |s.calls[c].batch| && s.calls[c].batch[i] == x
  }

  ghost predicate Logged(s: State) {
    && (forall c :: 0 <= c < |s.calls| ==> s.calls[c].done <= |s.calls[c].batch|)
    && (forall x :: x in s.log <==> HasRun(s, x))
    && (forall i, j :: 0 <= i < j < |s.log| ==> s.log[i] != s.log[j])
  }

  lemma {:induction false} StartSame(calls: seq<Call>, more: seq<Call>, c: nat)
    requires c <= |calls| <= |more|
    requires forall k :: 0 <= k < c ==> |more[k].batch| == |calls[k].batch|
    ensures Start(more, c) == Start(calls, c)
  {
    if c > 0 {
      StartSame(calls, more, c - 1);
    }
  }

  lemma {:induction false} StartMonotone(calls: seq<Call>, c: nat, d: nat)
    requires c <= d <= |calls|
    ensures Start(calls, c) <= Start(calls, d)
    decreases d
  {
    if c < d {
      StartMonotone(calls, c, d - 1);
    }
  }

  /** A callback occupies a single place in a single call. */
  lemma OnePlace(s: State, c: nat, i: nat, d: nat, j: nat)
    requires Partitioned(s) && c < |s.calls| && d < |s.calls|
    requires i < |s.calls[c].batch| && j < |s.calls[d].batch| && s.calls[c].batch[i] == s.calls[d].batch[j]
    ensures c == d && i == j
  {
    if c < d {
      StartMonotone(s.calls, c + 1, d);
    } else if d < c {
      StartMonotone(s.calls, d + 1, c);
    }
  }

  lemma StepKeepsPartition(s: State, a: Action)
    requires Partitioned(s) && Enabled(s, a)
    ensures Partitioned(Apply(s, a))
  {
    var t := Apply(s, a);
    match a
    case DoAdd =>
    case Claim =>
      forall c | 0 <= c <= |s.calls| ensures Start(t.calls, c) == Start(s.calls, c) {
        StartSame(s.calls, t.calls, c);
      }
    case RunNext(k) =>
      forall c | 0 <= c <= |s.calls| ensures Start(t.calls, c) == Start(s.calls, c) {
        StartSame(s.calls, t.calls, c);
      }
  }

  lemma RunNextLogs(s: State, k: nat)
    requires Partitioned(s) && Logged(s) && Enabled(s, RunNext(k))
    ensures Logged(Apply(s, RunNext(k)))
  {
    var t := Apply(s, RunNext(k));
    var n := s.calls[k].done;
    var x := s.calls[k].batch[n];
    if HasRun(s, x) {
      var c, i :| 0 <= c < |s.calls| && 0 <= i < s.calls[c].done && i < |s.calls[c].batch| && s.calls[c].batch[i] == x;
      OnePlace(s, c, i, k, n);
      assert false;
    }
    forall y ensures y in t.log <==> HasRun(t, y) {
      if HasRun(s, y) {
        var c, i :| 0 <= c < |s.calls| && 0 <= i < s.calls[c].done && i < |s.calls[c].batch| && s.calls[c].batch[i] == y;
        assert t.calls[c].batch[i] == y && i < t.calls[c].done;
      }
      if y == x {
        assert t.calls[k].batch[n] == y && n < t.calls[k].done;
      }
      if HasRun(t, y) {
        var c, i :| 0 <= c < |t.calls| && 0 <= i < t.calls[c].done && i < |t.calls[c].batch| && t.calls[c].batch[i] == y;
        assert (c == k && i == n) || i < s.calls[c].done;
      }
    }
  }

  lemma ClaimLogs(s: State)
    requires Logged(s)
    ensures Logged(Apply(s, Claim))
  {
    var t := Apply(s, Claim);
    forall y ensures HasRun(t, y) <==> HasRun(s, y) {
      if HasRun(s, y) {
        var c, i :| 0 <= c < |s.calls| && 0 <= i < s.calls[c].done && i < |s.calls[c].batch| && s.calls[c].batch[i] == y;
        assert t.calls[c].batch[i] == y;
      }
    }
  }

  lemma {:induction false} RunKeepsInv(states: seq<State>, acts: seq<Action>, k: nat)
    requires IsRun(states, acts) && k < |states|
    ensures Partitioned(states[k]) && Logged(states[k])
  {
    if k > 0 {
      RunKeepsInv(states, acts, k - 1);
      var s := states[k - 1];
      StepKeepsPartition(s, acts[k - 1]);
      match acts[k - 1]
      case DoAdd => assert forall y :: HasRun(states[k], y) <==> HasRun(s, y);
      case Claim => ClaimLogs(s);
      case RunNext(c) => RunNextLogs(s, c);
    }
  }

  ghost predicate ClaimedBy(s: State, x: nat, c: nat) {
    c < |s.calls| && x in s.calls[c].batch
  }

  lemma {:induction false} FindCall(s: State, x: nat, upTo: nat) returns (c: nat)
    requires Partitioned(s) && upTo <= |s.calls| && x < Start(s.calls, upTo)
    ensures c < upTo && ClaimedBy(s, x, c)
  {
    var lo := Start(s.calls, upTo - 1);
    if x < lo {
      c := FindCall(s, x, upTo - 1);
    } else {
      c := upTo - 1;
      var b := s.calls[c].batch;
      assert b[lo + |b| - 1 - x] == x;
    }
  }

  lemma {:induction false} AtMostOnce(log: seq<nat>, x: nat)
    requires forall i, j :: 0 <= i < j < |log| ==> log[i] != log[j]
    ensures multiset(log)[x] <= 1
  {
    if log != [] {
      assert log == [log[0]] + log[1..];
      AtMostOnce(log[1..], x);
      assert x == log[0] ==> x !in multiset(log[1..]);
    }
  }

  /** In every interleaving: each added callback is pending or claimed by exactly one call of clean, none has run
      twice, one that has run was claimed, and every call runs what it claimed last-added first. */
  lemma EveryCallbackOnce(states: seq<State>, acts: seq<Action>, k: nat, x: nat)
    requires IsRun(states, acts) && k < |states| && x < states[k].added
    ensures var s := states[k];
            && (x in s.pending <==> !exists c: nat :: ClaimedBy(s, x, c))
            && (forall c: nat, d: nat :: ClaimedBy(s, x, c) && ClaimedBy(s, x, d) ==> c == d)
            && multiset(s.log)[x] <= 1
            && (x in s.log ==> x !in s.pending)
            && (forall c, i, j :: 0 <= c < |s.calls| && 0 <= i < j < |s.calls[c].batch| ==> s.calls[c].batch[i] > s.calls[c].batch[j])
  {
    RunKeepsInv(states, acts, k);
    var s := states[k];
    forall c: nat, d: nat | ClaimedBy(s, x, c) && ClaimedBy(s, x, d) ensures c == d {
      var i :| 0 <= i < |s.calls[c].batch| && s.calls[c].batch[i] == x;
      var j :| 0 <= j < |s.calls[d].batch| && s.calls[d].batch[j] == x;
      OnePlace(s, c, i, d, j);
    }
    var claimed := Start(s.calls, |s.calls|);
    if x < claimed {
      var c := FindCall(s, x, |s.calls|);
    } else {
      assert s.pending[x - claimed] == x;
      forall c: nat | c < |s.calls| ensures !ClaimedBy(s, x, c) {
        StartMonotone(s.calls, c + 1, |s.calls|);
      }
    }
    AtMostOnce(s.log, x);
    if x in s.log {
      var c, i :| 0 <= c < |s.calls| && 0 <= i < s.calls[c].done && i < |s.calls[c].batch| && s.calls[c].batch[i] == x;
      assert ClaimedBy(s, x, c);
    }
  }
}
