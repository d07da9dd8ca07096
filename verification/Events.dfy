/** The event dispatcher (pkg/librevm/events.go): any number of goroutines call addReporter, emit and close on one
    dispatcher guarded by an RWMutex. Reports and Closes of a reporter take time and may be interleaved with
    everything that the mutex does not exclude. */
module Events {
  import opened Wrappers

  type Reporter = nat

  /** What a reporter sees. */
  datatype Obs =
    | ReportBegin(t: nat, r: Reporter, seqNo: nat)
    | ReportEnd(t: nat, r: Reporter, seqNo: nat)
    | CloseBegin(t: nat, r: Reporter)
    | CloseEnd(t: nat, r: Reporter)

  /** Where a call is. `targets[..i]` are done; `busy` means inside the Report or Close of `targets[i]`. */
  datatype Pc =
    | AddStart(r: Reporter)
    | AddClosing(r: Reporter)                                      // holds the write lock: late reporter
    | EmitStart
    | Publishing(targets: seq<Reporter>, i: nat, busy: bool)       // holds the read lock
    | CloseStart
    | Closing(targets: seq<Reporter>, i: nat, busy: bool)          // after the lock is dropped
    | Finished

  /** A call and the sequence number it drew (0 unless it is an emit). */
  datatype Thread = Thread(pc: Pc, seqNo: nat)

  datatype State = State(
    reporters: seq<Reporter>,
    closed: bool,
    lastSeq: nat,
    threads: seq<Thread>,
    passed: set<Reporter>,      // every reporter ever handed to addReporter
    registered: set<Reporter>,  // those that were appended to the list
    begun: set<Reporter>,       // those whose Close has begun
    ended: set<Reporter>,       // those whose Close has returned
    closeWon: bool,             // the call of close that found the dispatcher open has returned
    history: seq<Obs>)

  datatype Action =
    | CallAdd(r: Reporter) | CallEmit | CallClose
    | AddLock(t: nat) | AddCloseEnd(t: nat)
    | EmitLock(t: nat) | BeginReport(t: nat) | EndReport(t: nat) | EmitUnlock(t: nat)
    | CloseLock(t: nat) | BeginClose(t: nat) | EndClose(t: nat) | CloseReturn(t: nat)

  const INIT := State([], false, 0, [], {}, {}, {}, {}, false, [])

  ghost predicate NoWriter(s: State) {
    forall u :: 0 <= u < |s.threads| ==> !s.threads[u].pc.AddClosing?
  }

  ghost predicate NoHolder(s: State) {
    NoWriter(s) && forall u :: 0 <= u < |s.threads| ==> !s.threads[u].pc.Publishing?
  }

  function At(s: State, t: nat): Pc { if t < |s.threads| then s.threads[t].pc else Finished }

  ghost predicate Enabled(s: State, a: Action) {
    match a
    case CallAdd(r) => r !in s.passed
    case CallEmit => true
    case CallClose => true
    case AddLock(t) => At(s, t).AddStart? && NoHolder(s)
    case AddCloseEnd(t) => At(s, t).AddClosing?
    case EmitLock(t) => At(s, t).EmitStart? && NoWriter(s)
    case BeginReport(t) => At(s, t).Publishing? && !At(s, t).busy && At(s, t).i < |At(s, t).targets|
    case EndReport(t) => At(s, t).Publishing? && At(s, t).busy && At(s, t).i < |At(s, t).targets|
    case EmitUnlock(t) => At(s, t).Publishing? && !At(s, t).busy && At(s, t).i == |At(s, t).targets|
    case CloseLock(t) => At(s, t).CloseStart? && NoHolder(s)
    case BeginClose(t) => At(s, t).Closing? && !At(s, t).busy && At(s, t).i < |At(s, t).targets|
    case EndClose(t) => At(s, t).Closing? && At(s, t).busy && At(s, t).i < |At(s, t).targets|
    case CloseReturn(t) => At(s, t).Closing? && !At(s, t).busy && At(s, t).i == |At(s, t).targets|
  }

  function Go(s: State, t: nat, pc: Pc): State
    requires t < |s.threads|
  {
    s.(threads := s.threads[t := s.threads[t].(pc := pc)])
  }

  function See(s: State, o: Obs): State { s.(history := s.history + [o]) }

  ghost function Apply(s: State, a: Action): State
    requires Enabled(s, a)
  {
    match a
    case CallAdd(r) => s.(threads := s.threads + [Thread(AddStart(r), 0)], passed := s.passed + {r})
    case CallEmit => s.(threads := s.threads + [Thread(EmitStart, s.lastSeq + 1)], lastSeq := s.lastSeq + 1)
    case CallClose => s.(threads := s.threads + [Thread(CloseStart, 0)])
    case AddLock(t) =>
      var r := s.threads[t].pc.r;
      if s.closed then See(Go(s, t, AddClosing(r)).(begun := s.begun + {r}), CloseBegin(t, r))
      else Go(s, t, Finished).(reporters := s.reporters + [r], registered := s.registered + {r})
    case AddCloseEnd(t) =>
      var r := s.threads[t].pc.r;
      See(Go(s, t, Finished).(ended := s.ended + {r}), CloseEnd(t, r))
    case EmitLock(t) => if s.closed then Go(s, t, Finished) else Go(s, t, Publishing(s.reporters, 0, false))
    case BeginReport(t) =>
      var pc := s.threads[t].pc;
      See(Go(s, t, Publishing(pc.targets, pc.i, true)), ReportBegin(t, pc.targets[pc.i], s.threads[t].seqNo))
    case EndReport(t) =>
      var pc := s.threads[t].pc;
      See(Go(s, t, Publishing(pc.targets, pc.i + 1, false)), ReportEnd(t, pc.targets[pc.i], s.threads[t].seqNo))
    case EmitUnlock(t) => Go(s, t, Finished)
    case CloseLock(t) =>
      if s.closed then Go(s, t, Finished)
      else Go(s, t, Closing(s.reporters, 0, false)).(closed := true, reporters := [])
    case BeginClose(t) =>
      var pc := s.threads[t].pc;
      See(Go(s, t, Closing(pc.targets, pc.i, true)).(begun := s.begun + {pc.targets[pc.i]}), CloseBegin(t, pc.targets[pc.i]))
    case EndClose(t) =>
      var pc := s.threads[t].pc;
      See(Go(s, t, Closing(pc.targets, pc.i + 1, false)).(ended := s.ended + {pc.targets[pc.i]}), CloseEnd(t, pc.targets[pc.i]))
    case CloseReturn(t) => Go(s, t, Finished).(closeWon := true)
  }

  ghost predicate IsRun(states: seq<State>, acts: seq<Action>) {
    && |states| == |acts| + 1
    && states[0] == INIT
    && forall i :: 0 <= i < |acts| ==> Enabled(states[i], acts[i]) && states[i + 1] == Apply(states[i], acts[i])
  }

  // --- What every step keeps ------------------------------------------------------

  /** The reporters that a close still has to begin closing. */
  ghost predicate ToClose(pc: Pc, r: Reporter) {
    pc.Closing? && exists k :: (if pc.busy then pc.i < k else pc.i <= k) && 0 <= k < |pc.targets| && pc.targets[k] == r
  }

  /** The registered list is fresh: its reporters are distinct, known, and not being closed. */
  ghost predicate ListInv(s: State) {
    && Distinct(s.reporters)
    && (forall r :: r in s.reporters ==> r in s.registered && r !in s.begun)
    && (s.closed ==> s.reporters == [])
    && s.registered <= s.passed && s.begun <= s.passed
  }

  ghost predicate ThreadInv(s: State, t: nat)
    requires t < |s.threads|
  {
    var pc := s.threads[t].pc;
    match pc
    case AddStart(r) => r in s.passed && r !in s.registered && r !in s.begun
    case AddClosing(r) => s.closed && r in s.begun
    case EmitStart => s.threads[t].seqNo > 0
    case Publishing(targets, i, busy) => s.threads[t].seqNo > 0 && !s.closed && targets == s.reporters && i <= |targets| && (busy ==> i < |targets|)
    case Closing(targets, i, busy) =>
      && s.closed && !s.closeWon && Distinct(targets) && i <= |targets| && (busy ==> i < |targets|)
      && (forall r :: r in targets ==> r in s.registered)
      && (forall r :: ToClose(pc, r) ==> r !in s.begun)
      && (forall k :: 0 <= k < i ==> targets[k] in s.ended)
    case _ => true
  }

  ghost predicate PairInv(s: State, t: nat, u: nat)
    requires t < |s.threads| && u < |s.threads|
  {
    t != u ==>
      && (s.threads[t].pc.AddStart? && s.threads[u].pc.AddStart? ==> s.threads[t].pc.r != s.threads[u].pc.r)
      && !(s.threads[t].pc.Closing? && s.threads[u].pc.Closing?)
  }

  ghost predicate ThreadsInv(s: State) {
    && (forall t :: 0 <= t < |s.threads| ==> ThreadInv(s, t))
    && (forall t, u :: 0 <= t < |s.threads| && 0 <= u < |s.threads| ==> PairInv(s, t, u))
    && (s.closeWon ==> s.closed)
  }

  lemma StepKeepsList(s: State, a: Action)
    requires ListInv(s) && ThreadsInv(s) && Enabled(s, a)
    ensures ListInv(Apply(s, a))
  {
    match a
    case AddLock(t) => assert ThreadInv(s, t);
    case BeginClose(t) =>
      assert ThreadInv(s, t);
      assert ToClose(s.threads[t].pc, s.threads[t].pc.targets[s.threads[t].pc.i]);
    case _ =>
  }

  predicate IsCall(a: Action) { a.CallAdd? || a.CallEmit? || a.CallClose? }

  predicate IsAddStep(a: Action) { a.AddLock? || a.AddCloseEnd? }

  predicate IsEmitStep(a: Action) { a.EmitLock? || a.BeginReport? || a.EndReport? || a.EmitUnlock? }

  predicate IsCloseStep(a: Action) { a.CloseLock? || a.BeginClose? || a.EndClose? || a.CloseReturn? }

  /** The thread that moves keeps its own part. */
  lemma AdderKept(s: State, a: Action)
    requires ListInv(s) && Enabled(s, a) && IsAddStep(a) && ThreadInv(s, a.t)
    ensures ThreadInv(Apply(s, a), a.t)
  {
  }

  lemma EmitterKept(s: State, a: Action)
    requires ListInv(s) && Enabled(s, a) && IsEmitStep(a) && ThreadInv(s, a.t)
    ensures ThreadInv(Apply(s, a), a.t)
  {
  }

  lemma CloserKept(s: State, a: Action)
    requires ListInv(s) && (s.closeWon ==> s.closed) && Enabled(s, a) && IsCloseStep(a) && ThreadInv(s, a.t)
    ensures ThreadInv(Apply(s, a), a.t)
  {
    var pc, pc' := s.threads[a.t].pc, Apply(s, a).threads[a.t].pc;
    if a.BeginClose? || a.EndClose? {
      forall r | ToClose(pc', r) ensures ToClose(pc, r) && (a.BeginClose? ==> r != pc.targets[pc.i]) {
        var k :| (if pc'.busy then pc'.i < k else pc'.i <= k) && 0 <= k < |pc'.targets| && pc'.targets[k] == r;
        assert pc.targets[k] == r;
      }
    }
  }

  /** Everybody else's part is not disturbed. */
  lemma OthersKeptByCall(s: State, a: Action, u: nat)
    requires ListInv(s) && Enabled(s, a) && IsCall(a) && u < |s.threads| && ThreadInv(s, u)
    ensures ThreadInv(Apply(s, a), u)
  {
  }

  lemma OthersKeptByAdd(s: State, a: Action, u: nat)
    requires ListInv(s) && Enabled(s, a) && IsAddStep(a) && u < |s.threads| && u != a.t
    requires ThreadInv(s, a.t) && ThreadInv(s, u) && PairInv(s, a.t, u)
    ensures ThreadInv(Apply(s, a), u)
  {
  }

  lemma OthersKeptByEmit(s: State, a: Action, u: nat)
    requires Enabled(s, a) && IsEmitStep(a) && u < |s.threads| && u != a.t && ThreadInv(s, u)
    ensures ThreadInv(Apply(s, a), u)
  {
  }

  lemma OthersKeptByClose(s: State, a: Action, u: nat)
    requires ListInv(s) && Enabled(s, a) && IsCloseStep(a) && u < |s.threads| && u != a.t
    requires ThreadInv(s, a.t) && ThreadInv(s, u) && PairInv(s, a.t, u)
    ensures ThreadInv(Apply(s, a), u)
  {
    var pc := s.threads[a.t].pc;
    if a.BeginClose? {
      assert ToClose(pc, pc.targets[pc.i]);
    }
  }

  lemma EveryThreadKept(s: State, a: Action, u: nat)
    requires ListInv(s) && ThreadsInv(s) && Enabled(s, a) && u < |s.threads|
    ensures ThreadInv(Apply(s, a), u)
  {
    assert ThreadInv(s, u);
    if IsCall(a) {
      OthersKeptByCall(s, a, u);
    } else {
      assert ThreadInv(s, a.t) && PairInv(s, a.t, u);
      if IsAddStep(a) {
        if u == a.t { AdderKept(s, a); } else { OthersKeptByAdd(s, a, u); }
      } else if IsEmitStep(a) {
        if u == a.t { EmitterKept(s, a); } else { OthersKeptByEmit(s, a, u); }
      } else {
        if u == a.t { CloserKept(s, a); } else { OthersKeptByClose(s, a, u); }
      }
    }
  }

  lemma NewThread(s: State, a: Action)
    requires ListInv(s) && ThreadsInv(s) && Enabled(s, a) && IsCall(a)
    ensures |Apply(s, a).threads| == |s.threads| + 1 && ThreadInv(Apply(s, a), |s.threads|)
    ensures forall u :: 0 <= u < |s.threads| ==> PairInv(Apply(s, a), u, |s.threads|) && PairInv(Apply(s, a), |s.threads|, u)
  {
    forall u | 0 <= u < |s.threads| ensures PairInv(Apply(s, a), u, |s.threads|) && PairInv(Apply(s, a), |s.threads|, u) {
      assert ThreadInv(s, u);
    }
  }

  /** A call does not start over, and a close begins only on an open dispatcher. */
  lemma PcStep(s: State, a: Action, t: nat)
    requires Enabled(s, a) && t < |s.threads|
    ensures var pc, pc' := s.threads[t].pc, At(Apply(s, a), t);
            && t < |Apply(s, a).threads| && (pc'.AddStart? ==> pc' == pc)
            && (pc'.Closing? ==> pc.Closing? || (a == CloseLock(t) && !s.closed))
  {
  }

  lemma PairKept(s: State, a: Action, t: nat, u: nat)
    requires Enabled(s, a) && t < |s.threads| && u < |s.threads|
    requires ThreadInv(s, t) && ThreadInv(s, u) && PairInv(s, t, u)
    ensures PairInv(Apply(s, a), t, u)
  {
    PcStep(s, a, t);
    PcStep(s, a, u);
  }

  lemma StepKeepsThreads(s: State, a: Action)
    requires ListInv(s) && ThreadsInv(s) && Enabled(s, a)
    ensures ThreadsInv(Apply(s, a))
  {
    var s' := Apply(s, a);
    if IsCall(a) {
      NewThread(s, a);
    }
    forall t | 0 <= t < |s'.threads| ensures ThreadInv(s', t) {
      if t < |s.threads| {
        EveryThreadKept(s, a, t);
      }
    }
    forall t, u | 0 <= t < |s'.threads| && 0 <= u < |s'.threads| ensures PairInv(s', t, u) {
      if t < |s.threads| && u < |s.threads| {
        PairKept(s, a, t, u);
      }
    }
    if a.CloseReturn? {
      assert ThreadInv(s, a.t);
    }
  }

  // --- The history -------------------------------------------------------------------

  predicate IsReport(o: Obs, r: Reporter) { (o.ReportBegin? || o.ReportEnd?) && o.r == r }

  predicate IsCloseBegin(o: Obs, r: Reporter) { o.CloseBegin? && o.r == r }

  /** Once a reporter's Close has begun, no Report of it begins or ends, and its Close does not begin again. */
  ghost predicate Orderly(h: seq<Obs>) {
    forall i, j, r :: 0 <= i < j < |h| && IsCloseBegin(h[i], r) ==> !IsReport(h[j], r) && !IsCloseBegin(h[j], r)
  }

  ghost predicate HistoryInv(s: State) {
    && Orderly(s.history)
    && forall i :: 0 <= i < |s.history| && s.history[i].CloseBegin? ==> s.history[i].r in s.begun
  }

  lemma AppendOrderly(h: seq<Obs>, o: Obs, begun: set<Reporter>)
    requires Orderly(h) && forall i :: 0 <= i < |h| && h[i].CloseBegin? ==> h[i].r in begun
    requires o.CloseEnd? || o.r !in begun
    ensures Orderly(h + [o])
  {
  }

  /** What a step adds to the history is allowed there. */
  lemma ObsAllowed(s: State, a: Action, o: Obs)
    requires ListInv(s) && ThreadsInv(s) && Enabled(s, a) && Apply(s, a).history == s.history + [o]
    ensures Apply(s, a).begun == s.begun + (if o.CloseBegin? then {o.r} else {})
    ensures o.CloseEnd? || o.r !in s.begun
  {
    assert Apply(s, a).history[|s.history|] == o;
    if !IsCall(a) {
      assert ThreadInv(s, a.t);
      if a.BeginClose? {
        assert ToClose(s.threads[a.t].pc, o.r);
      }
    }
  }

  lemma HistoryGrows(s: State, a: Action)
    requires Enabled(s, a)
    ensures var h := Apply(s, a).history; (h == s.history && Apply(s, a).begun == s.begun) || (|h| > 0 && h == s.history + [h[|h| - 1]])
  {
  }

  lemma StepKeepsHistory(s: State, a: Action)
    requires ListInv(s) && ThreadsInv(s) && HistoryInv(s) && Enabled(s, a)
    ensures HistoryInv(Apply(s, a))
  {
    HistoryGrows(s, a);
    var h := Apply(s, a).history;
    if h != s.history {
      var o := h[|h| - 1];
      ObsAllowed(s, a, o);
      AppendOrderly(s.history, o, s.begun);
    }
  }

  ghost predicate Tagged(s: State, o: Obs) {
    o.ReportBegin? ==> o.t < |s.threads| && o.seqNo == s.threads[o.t].seqNo > 0
  }

  /** Every emit draws its own sequence number, and its deliveries carry it. */
  ghost predicate SeqInv(s: State) {
    && (forall t :: 0 <= t < |s.threads| ==> s.threads[t].seqNo <= s.lastSeq)
    && (forall t, u :: 0 <= t < u < |s.threads| && s.threads[t].seqNo > 0 ==> s.threads[t].seqNo != s.threads[u].seqNo)
    && (forall i :: 0 <= i < |s.history| && s.history[i].ReportBegin? ==> Tagged(s, s.history[i]))
  }

  lemma SeqFrame(s: State, a: Action)
    requires Enabled(s, a)
    ensures var s' := Apply(s, a);
            && |s.threads| <= |s'.threads| <= |s.threads| + 1
            && (forall t :: 0 <= t < |s.threads| ==> s'.threads[t].seqNo == s.threads[t].seqNo)
            && (|s'.threads| > |s.threads| ==> s'.threads[|s.threads|].seqNo in {0, s.lastSeq + 1} && s'.threads[|s.threads|].seqNo <= s'.lastSeq)
            && s.lastSeq <= s'.lastSeq
            && (s'.history == s.history ||
                exists o :: s'.history == s.history + [o] && (o.ReportBegin? ==> a == BeginReport(o.t) && At(s, o.t).Publishing? && o.seqNo == s.threads[o.t].seqNo))
  {
    var s' := Apply(s, a);
    if s'.history != s.history {
      var o := s'.history[|s.history|];
      assert s'.history == s.history + [o];
    }
  }

  lemma StepKeepsTags(s: State, a: Action)
    requires ThreadsInv(s) && SeqInv(s) && Enabled(s, a)
    ensures var s' := Apply(s, a); forall i :: 0 <= i < |s'.history| && s'.history[i].ReportBegin? ==> Tagged(s', s'.history[i])
  {
    SeqFrame(s, a);
    var s' := Apply(s, a);
    forall i | 0 <= i < |s'.history| && s'.history[i].ReportBegin? ensures Tagged(s', s'.history[i]) {
      if i < |s.history| {
        assert s'.history[i] == s.history[i] && Tagged(s, s.history[i]);
      } else {
        assert ThreadInv(s, s'.history[i].t);
      }
    }
  }

  lemma StepKeepsSeq(s: State, a: Action)
    requires ThreadsInv(s) && SeqInv(s) && Enabled(s, a)
    ensures SeqInv(Apply(s, a))
  {
    SeqFrame(s, a);
    StepKeepsTags(s, a);
  }

  ghost predicate Pending(pc: Pc, r: Reporter) {
    pc.Closing? && exists k :: pc.i <= k < |pc.targets| && pc.targets[k] == r
  }

  /** Every registered reporter is still listed, still to be closed, or closed. */
  ghost predicate Accounted(s: State) {
    forall r :: r in s.registered && r !in s.reporters && r !in s.ended ==>
      exists t :: 0 <= t < |s.threads| && Pending(s.threads[t].pc, r)
  }

  lemma PendingKept(s: State, a: Action, t: nat, r: Reporter)
    requires Enabled(s, a) && t < |s.threads| && Pending(s.threads[t].pc, r) && r !in Apply(s, a).ended
    ensures t < |Apply(s, a).threads| && Pending(Apply(s, a).threads[t].pc, r)
  {
    var pc := s.threads[t].pc;
    var k :| pc.i <= k < |pc.targets| && pc.targets[k] == r;
    if a == EndClose(t) {
      assert k != pc.i;
    }
  }

  lemma StepKeepsAccount(s: State, a: Action)
    requires ThreadsInv(s) && Accounted(s) && Enabled(s, a)
    ensures Accounted(Apply(s, a))
  {
    var s' := Apply(s, a);
    forall r | r in s'.registered && r !in s'.reporters && r !in s'.ended
      ensures exists t :: 0 <= t < |s'.threads| && Pending(s'.threads[t].pc, r)
    {
      if r in s.reporters {
        assert a.CloseLock?;
        assert Pending(s'.threads[a.t].pc, r);
      } else {
        var t :| 0 <= t < |s.threads| && Pending(s.threads[t].pc, r);
        PendingKept(s, a, t, r);
      }
    }
  }

  /** A call that is still dealing with the reporter that it was handed. */
  predicate Adding(pc: Pc, r: Reporter) { pc == AddStart(r) || pc == AddClosing(r) }

  /** Every reporter that was handed over is registered, closed, or still being dealt with. */
  ghost predicate Handled(s: State) {
    forall r :: r in s.passed && r !in s.registered && r !in s.ended ==>
      exists t :: 0 <= t < |s.threads| && Adding(s.threads[t].pc, r)
  }

  lemma AddingKept(s: State, a: Action, t: nat, r: Reporter)
    requires Enabled(s, a) && t < |s.threads| && Adding(s.threads[t].pc, r)
    requires r !in Apply(s, a).registered && r !in Apply(s, a).ended
    ensures t < |Apply(s, a).threads| && Adding(Apply(s, a).threads[t].pc, r)
  {
  }

  lemma HandedGrows(s: State, a: Action)
    requires Enabled(s, a)
    ensures s.registered <= Apply(s, a).registered && s.ended <= Apply(s, a).ended
    ensures Apply(s, a).passed == if a.CallAdd? then s.passed + {a.r} else s.passed
  {
  }

  lemma StepKeepsHandled(s: State, a: Action)
    requires Handled(s) && Enabled(s, a)
    ensures Handled(Apply(s, a))
  {
    var s' := Apply(s, a);
    HandedGrows(s, a);
    forall r | r in s'.passed && r !in s'.registered && r !in s'.ended
      ensures exists t :: 0 <= t < |s'.threads| && Adding(s'.threads[t].pc, r)
    {
      if r in s.passed {
        var t :| 0 <= t < |s.threads| && Adding(s.threads[t].pc, r);
        AddingKept(s, a, t, r);
      } else {
        assert Adding(s'.threads[|s.threads|].pc, r);
      }
    }
  }

  ghost predicate Inv(s: State) {
    ListInv(s) && ThreadsInv(s) && HistoryInv(s) && SeqInv(s) && Accounted(s) && Handled(s)
  }

  lemma {:induction false} RunKeepsInv(states: seq<State>, acts: seq<Action>, k: nat)
    requires IsRun(states, acts) && k < |states|
    ensures Inv(states[k])
  {
    if k > 0 {
      RunKeepsInv(states, acts, k - 1);
      var s, a := states[k - 1], acts[k - 1];
      StepKeepsList(s, a);
      StepKeepsThreads(s, a);
      StepKeepsHistory(s, a);
      StepKeepsSeq(s, a);
      StepKeepsAccount(s, a);
      StepKeepsHandled(s, a);
    }
  }

  // --- The promises --------------------------------------------------------------------

  /** In every interleaving: no Report of a reporter overlaps or follows its Close, and none is closed twice. */
  lemma NoReportAfterClose(states: seq<State>, acts: seq<Action>, k: nat)
    requires IsRun(states, acts) && k < |states|
    ensures Orderly(states[k].history)
  {
    RunKeepsInv(states, acts, k);
  }

  /** Once the call of close that found the dispatcher open has returned, every registered reporter is closed. */
  lemma WinningCloseClosesAll(states: seq<State>, acts: seq<Action>, k: nat)
    requires IsRun(states, acts) && k < |states| && states[k].closeWon
    ensures states[k].registered <= states[k].ended
  {
    RunKeepsInv(states, acts, k);
    var s := states[k];
    forall t | 0 <= t < |s.threads| ensures !s.threads[t].pc.Closing? {
      assert ThreadInv(s, t);
    }
  }

  /** And once every addReporter has returned as well, so is every reporter that was ever handed over, late or not. */
  lemma AllClosedInTheEnd(states: seq<State>, acts: seq<Action>, k: nat)
    requires IsRun(states, acts) && k < |states| && states[k].closeWon
    requires forall t, r :: 0 <= t < |states[k].threads| ==> !Adding(states[k].threads[t].pc, r)
    ensures states[k].passed <= states[k].ended
  {
    RunKeepsInv(states, acts, k);
    WinningCloseClosesAll(states, acts, k);
  }

  /** Two deliveries carry the same sequence number only if they belong to the same emit. */
  lemma SeqIdentifiesEmit(states: seq<State>, acts: seq<Action>, k: nat, i: nat, j: nat)
    requires IsRun(states, acts) && k < |states| && i < |states[k].history| && j < |states[k].history|
    requires states[k].history[i].ReportBegin? && states[k].history[j].ReportBegin?
    requires states[k].history[i].seqNo == states[k].history[j].seqNo
    ensures states[k].history[i].t == states[k].history[j].t
  {
    RunKeepsInv(states, acts, k);
    assert Tagged(states[k], states[k].history[i]) && Tagged(states[k], states[k].history[j]);
  }

  /** The reporters that emit `t` has delivered to, in order. */
  function DeliveredBy(h: seq<Obs>, t: nat): seq<Reporter> {
    if h == [] then []
    else
      var o := h[|h| - 1];
      DeliveredBy(h[..|h| - 1], t) + (if o.ReportEnd? && o.t == t then [o.r] else [])
  }

  lemma DeliveredStep(h: seq<Obs>, o: Obs, t: nat)
    ensures DeliveredBy(h + [o], t) == DeliveredBy(h, t) + (if o.ReportEnd? && o.t == t then [o.r] else [])
  {
    assert (h + [o])[..|h|] == h;
  }

  /** How far emit `t` has got, and what it has delivered. */
  ghost predicate Progress(s: State, t: nat) {
    var pc := At(s, t);
    && (pc.Publishing? ==> pc.i <= |pc.targets| && DeliveredBy(s.history, t) == pc.targets[..pc.i])
    && (t >= |s.threads| || pc.EmitStart? ==> DeliveredBy(s.history, t) == [])
  }

  lemma StepDelivers(s: State, a: Action, t: nat)
    requires Enabled(s, a)
    ensures var s' := Apply(s, a);
            DeliveredBy(s'.history, t) == DeliveredBy(s.history, t) + (if a == EndReport(t) then [At(s, t).targets[At(s, t).i]] else [])
  {
    var s' := Apply(s, a);
    if s'.history != s.history {
      var o := s'.history[|s.history|];
      assert s'.history == s.history + [o];
      DeliveredStep(s.history, o, t);
    }
  }

  /** How one step moves an emit. */
  lemma EmitStep(s: State, a: Action, t: nat)
    requires Enabled(s, a) && At(Apply(s, a), t).Publishing?
    ensures var pc, pc' := At(s, t), At(Apply(s, a), t);
            if a == EmitLock(t) then pc.EmitStart? && !s.closed && pc' == Publishing(s.reporters, 0, false)
            else && pc.Publishing? && pc'.targets == pc.targets && pc'.i == (if a == EndReport(t) then pc.i + 1 else pc.i)
                 && (a == EndReport(t) ==> pc.i < |pc.targets|)
  {
  }

  lemma EmitNotYet(s: State, a: Action, t: nat)
    requires Enabled(s, a) && (t >= |Apply(s, a).threads| || At(Apply(s, a), t).EmitStart?)
    ensures (t >= |s.threads| || At(s, t).EmitStart?) && a != EndReport(t)
  {
  }

  lemma PublishingProgress(s: State, a: Action, t: nat)
    requires Enabled(s, a) && Progress(s, t) && At(Apply(s, a), t).Publishing?
    ensures var pc := At(Apply(s, a), t); pc.i <= |pc.targets| && DeliveredBy(Apply(s, a).history, t) == pc.targets[..pc.i]
  {
    StepDelivers(s, a, t);
    EmitStep(s, a, t);
    var pc := At(s, t);
    if a == EndReport(t) {
      assert pc.targets[..pc.i + 1] == pc.targets[..pc.i] + [pc.targets[pc.i]];
    }
  }

  lemma StepProgress(s: State, a: Action, t: nat)
    requires Enabled(s, a) && Progress(s, t)
    ensures Progress(Apply(s, a), t)
  {
    if At(Apply(s, a), t).Publishing? {
      PublishingProgress(s, a, t);
    } else if t >= |Apply(s, a).threads| || At(Apply(s, a), t).EmitStart? {
      EmitNotYet(s, a, t);
      StepDelivers(s, a, t);
    }
  }

  lemma {:induction false} RunProgress(states: seq<State>, acts: seq<Action>, k: nat, t: nat)
    requires IsRun(states, acts) && k < |states|
    ensures Progress(states[k], t)
  {
    if k > 0 {
      RunProgress(states, acts, k - 1, t);
      StepProgress(states[k - 1], acts[k - 1], t);
    }
  }

  /** While emit `t` publishes, it works through the list that was registered when it took the read lock. */
  lemma {:induction false} PublishingSinceLock(states: seq<State>, acts: seq<Action>, k: nat, t: nat) returns (l: nat)
    requires IsRun(states, acts) && k < |states| && At(states[k], t).Publishing?
    ensures l < k && acts[l] == EmitLock(t) && !states[l].closed && states[l].reporters == At(states[k], t).targets
  {
    EmitStep(states[k - 1], acts[k - 1], t);
    l := k - 1;
    if acts[l] != EmitLock(t) {
      l := PublishingSinceLock(states, acts, k - 1, t);
    }
  }

  /** An emit that releases the read lock has delivered its event, once each and in order, to exactly the reporters
      that were registered when it took the lock. */
  lemma EmitReachesRegistered(states: seq<State>, acts: seq<Action>, k: nat, t: nat) returns (l: nat)
    requires IsRun(states, acts) && k < |acts| && acts[k] == EmitUnlock(t)
    ensures l < k && acts[l] == EmitLock(t) && !states[l].closed
    ensures DeliveredBy(states[k].history, t) == states[l].reporters && Distinct(states[l].reporters)
  {
    l := PublishingSinceLock(states, acts, k, t);
    RunProgress(states, acts, k, t);
    var pc := At(states[k], t);
    assert pc.targets[..pc.i] == pc.targets;
    RunKeepsInv(states, acts, l);
  }

  lemma FinishedStays(s: State, a: Action, t: nat)
    requires Enabled(s, a) && t < |s.threads| && At(s, t).Finished?
    ensures t < |Apply(s, a).threads| && At(Apply(s, a), t).Finished? && a != EndReport(t)
  {
  }

  /** An emit that finds the dispatcher closed never delivers anything. */
  lemma {:induction false} LateEmitDeliversNothing(states: seq<State>, acts: seq<Action>, l: nat, k: nat, t: nat)
    requires IsRun(states, acts) && l < k < |states| && acts[l] == EmitLock(t) && states[l].closed
    ensures DeliveredBy(states[k].history, t) == [] && t < |states[k].threads| && At(states[k], t).Finished?
    decreases k
  {
    StepDelivers(states[k - 1], acts[k - 1], t);
    if k - 1 == l {
      RunProgress(states, acts, l, t);
    } else {
      LateEmitDeliversNothing(states, acts, l, k - 1, t);
      FinishedStays(states[k - 1], acts[k - 1], t);
    }
  }

  // --- The methods, run without interference ---------------------------------------------

  /** What the reporters see of one emit, and of one close, that run from start to end. */
  function ReportAll(t: nat, rs: seq<Reporter>, seqNo: nat): seq<Obs> {
    if rs == [] then [] else ReportAll(t, rs[..|rs| - 1], seqNo) + [ReportBegin(t, rs[|rs| - 1], seqNo), ReportEnd(t, rs[|rs| - 1], seqNo)]
  }

  function CloseAll(t: nat, rs: seq<Reporter>): seq<Obs> {
    if rs == [] then [] else CloseAll(t, rs[..|rs| - 1]) + [CloseBegin(t, rs[|rs| - 1]), CloseEnd(t, rs[|rs| - 1])]
  }

  /** Index by index: each reporter in turn gets the event, begun and ended, and nothing else is seen. */
  lemma {:induction false} ReportAllAt(t: nat, rs: seq<Reporter>, seqNo: nat, i: nat)
    requires i < |rs|
    ensures var h := ReportAll(t, rs, seqNo);
            |h| == 2 * |rs| && h[2 * i] == ReportBegin(t, rs[i], seqNo) && h[2 * i + 1] == ReportEnd(t, rs[i], seqNo)
  {
    var init := rs[..|rs| - 1];
    if i < |init| {
      ReportAllAt(t, init, seqNo, i);
    } else if |init| > 0 {
      ReportAllAt(t, init, seqNo, 0);
    }
  }

  lemma {:induction false} CloseAllAt(t: nat, rs: seq<Reporter>, i: nat)
    requires i < |rs|
    ensures var h := CloseAll(t, rs); |h| == 2 * |rs| && h[2 * i] == CloseBegin(t, rs[i]) && h[2 * i + 1] == CloseEnd(t, rs[i])
  {
    var init := rs[..|rs| - 1];
    if i < |init| {
      CloseAllAt(t, init, i);
    } else if |init| > 0 {
      CloseAllAt(t, init, 0);
    }
  }

  class EventDispatcher {
    var reporters: seq<Reporter>
    var closed: bool
    ghost var history: seq<Obs>

    constructor ()
      ensures reporters == [] && !closed && history == []
    {
      reporters, closed, history := [], false, [];
    }

    method AddReporter(ghost t: nat, r: Reporter)
      modifies this
      ensures closed == old(closed)
      ensures closed ==> reporters == old(reporters) && history == old(history) + CloseAll(t, [r])
      ensures !closed ==> reporters == old(reporters) + [r] && history == old(history)
    {
      if closed {
        history := history + [CloseBegin(t, r), CloseEnd(t, r)];
        assert CloseAll(t, [r]) == [CloseBegin(t, r), CloseEnd(t, r)];
        return;
      }
      reporters := reporters + [r];
    }

    method Publish(ghost t: nat, seqNo: nat)
      modifies this`history
      ensures closed ==> history == old(history)
      ensures !closed ==> history == old(history) + ReportAll(t, reporters, seqNo)
    {
      if closed {
        return;
      }
      var i := 0;
      while i < |reporters|
        invariant 0 <= i <= |reporters|
        invariant history == old(history) + ReportAll(t, reporters[..i], seqNo)
      {
        assert reporters[..i + 1][..i] == reporters[..i];
        history := history + [ReportBegin(t, reporters[i], seqNo), ReportEnd(t, reporters[i], seqNo)];
        i := i + 1;
      }
      assert reporters[..i] == reporters;
    }

    /** Closes every registered reporter once, however often it is called. */
    method Close(ghost t: nat)
      modifies this
      ensures closed
      ensures old(closed) ==> reporters == old(reporters) && history == old(history)
      ensures !old(closed) ==> reporters == [] && history == old(history) + CloseAll(t, old(reporters))
    {
      if closed {
        return;
      }
      closed := true;
      var copied := reporters;
      reporters := [];
      var i := 0;
      while i < |copied|
        invariant 0 <= i <= |copied| && closed && reporters == []
        invariant history == old(history) + CloseAll(t, copied[..i])
      {
        assert copied[..i + 1][..i] == copied[..i];
        history := history + [CloseBegin(t, copied[i]), CloseEnd(t, copied[i])];
        i := i + 1;
      }
      assert copied[..i] == copied;
    }
  }
}
