/** The byte relays: relayBidirectional (guest unix_forwarder.go), proxy (pkg/network/forwarder.go) and
    bidirectionalCopy (pkg/gvproxy/tunnel.go), as step machines over every schedule of chunk reads and
    writes, half-closes, errors, cancellation and connection closes. */
module Relay {
  import opened Wrappers

  /** When the relay closes the two connections. `WaitBoth`: on cancellation, or after both copying
      goroutines have returned. `CloseOnFirst`: as soon as either copy ends. */
  datatype Policy = WaitBoth | CloseOnFirst

  datatype Way = AToB | BToA

  /** One io.Copy and the two peers it connects. */
  datatype Copy = Copy(
    sent: seq<int>,      // what the source peer has written
    eof: bool,           // the source peer has closed its writing side
    taken: nat,          // how much of it has been read
    buf: seq<int>,       // read but not yet written on
    received: seq<int>,  // what the destination peer has been given
    done: bool,          // io.Copy has returned
    clean: bool,         // it returned because it read the end of the stream
    returned: bool,      // the goroutine has half-closed its destination and returned
    sawEof: bool)        // the destination peer has been told that the stream ends

  datatype State = State(ab: Copy, ba: Copy, aClosed: bool, bClosed: bool, cancelled: bool, fault: bool)

  datatype Action =
    | PeerSend(way: Way, bytes: seq<int>)
    | PeerEof(way: Way)
    | Read(way: Way, n: nat)
    | Write(way: Way, n: nat)
    | ReadEof(way: Way)
    | Fault(way: Way)   // a network error ends the copy
    | Abort(way: Way)   // reading or writing a connection that the relay has closed ends the copy
    | Return(way: Way)
    | Cancel
    | CloseA
    | CloseB

  const IDLE := Copy([], false, 0, [], [], false, false, false, false)
  const INIT := State(IDLE, IDLE, false, false, false, false)

  function Get(s: State, w: Way): Copy { if w.AToB? then s.ab else s.ba }

  function Put(s: State, w: Way, c: Copy): State { if w.AToB? then s.(ab := c) else s.(ba := c) }

  predicate SrcOpen(s: State, w: Way) { if w.AToB? then !s.aClosed else !s.bClosed }

  predicate DstOpen(s: State, w: Way) { if w.AToB? then !s.bClosed else !s.aClosed }

  predicate MayClose(p: Policy, s: State) {
    match p
    case WaitBoth => s.cancelled || (s.ab.returned && s.ba.returned)
    case CloseOnFirst => s.ab.done || s.ba.done
  }

  predicate Enabled(p: Policy, s: State, a: Action) {
    match a
    case PeerSend(w, _) => !Get(s, w).eof
    case PeerEof(w) => !Get(s, w).eof
    case Read(w, n) => var c := Get(s, w); !c.done && c.buf == [] && SrcOpen(s, w) && 1 <= n <= |c.sent| - c.taken
    case Write(w, n) => var c := Get(s, w); !c.done && DstOpen(s, w) && 1 <= n <= |c.buf|
    case ReadEof(w) => var c := Get(s, w); !c.done && c.buf == [] && SrcOpen(s, w) && c.eof && c.taken == |c.sent|
    case Fault(w) => !Get(s, w).done
    case Abort(w) => !Get(s, w).done && (!SrcOpen(s, w) || !DstOpen(s, w))
    case Return(w) => Get(s, w).done && !Get(s, w).returned
    case Cancel => true
    case CloseA => MayClose(p, s)
    case CloseB => MayClose(p, s)
  }

  /** The effect of a step on one direction, on its own. */
  function ApplyToCopy(c: Copy, a: Action, halfClose: bool): Copy
    requires a.Read? ==> c.taken + a.n <= |c.sent|
    requires a.Write? ==> a.n <= |c.buf|
  {
    match a
    case PeerSend(_, bytes) => c.(sent := c.sent + bytes)
    case PeerEof(_) => c.(eof := true)
    case Read(_, n) => c.(buf := c.sent[c.taken..c.taken + n], taken := c.taken + n)
    case Write(_, n) => c.(received := c.received + c.buf[..n], buf := c.buf[n..])
    case ReadEof(_) => c.(done := true, clean := true)
    case Fault(_) => c.(done := true)
    case Abort(_) => c.(done := true)
    case Return(_) => c.(returned := true, sawEof := halfClose)
    case _ => c
  }

  function Apply(p: Policy, s: State, a: Action): State
    requires Enabled(p, s, a)
  {
    match a
    case Cancel => s.(cancelled := true)
    case CloseA => s.(aClosed := true)
    case CloseB => s.(bClosed := true)
    case _ =>
      // bidirectionalCopy has no CloseWrite: its destination learns of the end by the close itself
      Put(s, a.way, ApplyToCopy(Get(s, a.way), a, p.WaitBoth? && DstOpen(s, a.way))).(fault := s.fault || a.Fault?)
  }

  ghost predicate IsRun(p: Policy, states: seq<State>, acts: seq<Action>) {
    && |states| == |acts| + 1
    && states[0] == INIT
    && forall i :: 0 <= i < |acts| ==> Enabled(p, states[i], acts[i]) && states[i + 1] == Apply(p, states[i], acts[i])
  }

  // --- What every step keeps ---------------------------------------------------

  /** Bytes are moved in order and none is invented; a copy that ended cleanly delivered everything. */
  ghost predicate CopyInv(c: Copy) {
    && c.taken <= |c.sent|
    && c.received + c.buf == c.sent[..c.taken]
    && (c.clean ==> c.done && c.eof && c.buf == [] && c.taken == |c.sent|)
    && (c.returned ==> c.done)
    && (c.sawEof ==> c.returned)
  }

  ghost predicate Quiet(s: State) { !s.cancelled && !s.fault }

  /** Who has been told of the end of a stream: nobody by bidirectionalCopy; by the others, without error or
      cancellation, everyone to whom a copy has returned. */
  ghost predicate Told(p: Policy, s: State) {
    && (p.CloseOnFirst? ==> !s.ab.sawEof && !s.ba.sawEof)
    && (Quiet(s) && p.WaitBoth? ==> (s.ab.returned ==> s.ab.sawEof) && (s.ba.returned ==> s.ba.sawEof))
  }

  ghost predicate Inv(p: Policy, s: State) {
    && CopyInv(s.ab) && CopyInv(s.ba) && Told(p, s)
    && (Quiet(s) && p.WaitBoth? ==>
          && (s.ab.done ==> s.ab.clean) && (s.ba.done ==> s.ba.clean)
          && (s.aClosed || s.bClosed ==> s.ab.returned && s.ba.returned))
    && (!s.fault && p.CloseOnFirst? ==>
          && (s.ab.done || s.ba.done || s.aClosed || s.bClosed ==> s.ab.clean || s.ba.clean)
          && (!s.aClosed && !s.bClosed ==> (s.ab.done ==> s.ab.clean) && (s.ba.done ==> s.ba.clean)))
  }

  lemma SendKeeps(c: Copy, bytes: seq<int>)
    requires CopyInv(c) && !c.eof
    ensures CopyInv(c.(sent := c.sent + bytes))
  {
    assert (c.sent + bytes)[..c.taken] == c.sent[..c.taken];
  }

  lemma ReadKeeps(c: Copy, n: nat)
    requires CopyInv(c) && !c.done && c.buf == [] && 1 <= n <= |c.sent| - c.taken
    ensures CopyInv(c.(buf := c.sent[c.taken..c.taken + n], taken := c.taken + n))
  {
    assert c.sent[..c.taken + n] == c.sent[..c.taken] + c.sent[c.taken..c.taken + n];
  }

  lemma WriteKeeps(c: Copy, n: nat)
    requires CopyInv(c) && !c.done && 1 <= n <= |c.buf|
    ensures CopyInv(c.(received := c.received + c.buf[..n], buf := c.buf[n..]))
  {
    assert c.received + c.buf[..n] + c.buf[n..] == c.received + c.buf;
  }

  lemma CopyStepKeeps(c: Copy, a: Action, halfClose: bool)
    requires CopyInv(c)
    requires a.PeerSend? ==> !c.eof
    requires a.Read? ==> !c.done && c.buf == [] && 1 <= a.n <= |c.sent| - c.taken
    requires a.Write? ==> !c.done && 1 <= a.n <= |c.buf|
    requires a.ReadEof? ==> c.buf == [] && c.eof && c.taken == |c.sent|
    requires a.Return? ==> c.done
    ensures CopyInv(ApplyToCopy(c, a, halfClose))
  {
    match a
    case PeerSend(_, bytes) => SendKeeps(c, bytes);
    case Read(_, n) => ReadKeeps(c, n);
    case Write(_, n) => WriteKeeps(c, n);
    case _ =>
  }

  predicate Concerns(a: Action, w: Way) {
    !a.Cancel? && !a.CloseA? && !a.CloseB? && a.way == w
  }

  /** A step changes only the direction it concerns. */
  lemma ApplyFrame(p: Policy, s: State, a: Action, w: Way)
    requires Enabled(p, s, a)
    ensures Concerns(a, w) ==>
      Get(Apply(p, s, a), w) == ApplyToCopy(Get(s, w), a, p.WaitBoth? && DstOpen(s, w))
    ensures !Concerns(a, w) ==> Get(Apply(p, s, a), w) == Get(s, w)
  {
  }

  lemma StepKeepsCopy(p: Policy, s: State, a: Action, w: Way)
    requires CopyInv(Get(s, w)) && Enabled(p, s, a)
    ensures CopyInv(Get(Apply(p, s, a), w))
  {
    ApplyFrame(p, s, a, w);
    if Concerns(a, w) {
      var c := Get(s, w);
      CopyStepKeeps(c, a, p.WaitBoth? && DstOpen(s, w));
    }
  }

  /** A copy that returns while its destination is open tells it of the end, and nothing is ever untold. */
  lemma TellStep(p: Policy, s: State, a: Action, w: Way)
    requires Enabled(p, s, a) && CopyInv(Get(s, w))
    ensures var c, c' := Get(s, w), Get(Apply(p, s, a), w);
            && (c.returned ==> c'.returned && c'.sawEof == c.sawEof)
            && (a == Return(w) ==> c'.returned && c'.sawEof == (p.WaitBoth? && DstOpen(s, w)))
            && (a != Return(w) ==> c'.returned == c.returned && c'.sawEof == c.sawEof)
  {
    ApplyFrame(p, s, a, w);
  }

  lemma StepKeepsTold(p: Policy, s: State, a: Action)
    requires Inv(p, s) && Enabled(p, s, a)
    ensures Told(p, Apply(p, s, a))
  {
    TellStep(p, s, a, AToB);
    TellStep(p, s, a, BToA);
  }

  lemma StepKeepsInv(p: Policy, s: State, a: Action)
    requires Inv(p, s) && Enabled(p, s, a)
    ensures Inv(p, Apply(p, s, a))
  {
    StepKeepsCopy(p, s, a, AToB);
    StepKeepsCopy(p, s, a, BToA);
    StepKeepsTold(p, s, a);
  }

  lemma {:induction false} RunKeepsInv(p: Policy, states: seq<State>, acts: seq<Action>, k: nat)
    requires IsRun(p, states, acts) && k < |states|
    ensures Inv(p, states[k])
  {
    if k > 0 {
      RunKeepsInv(p, states, acts, k - 1);
      StepKeepsInv(p, states[k - 1], acts[k - 1]);
    }
  }

  /** In every schedule of every relay, what a peer has received is a prefix of what the other has sent. */
  lemma ReceivedIsPrefix(p: Policy, states: seq<State>, acts: seq<Action>, k: nat)
    requires IsRun(p, states, acts) && k < |states|
    ensures states[k].ab.received <= states[k].ab.sent
    ensures states[k].ba.received <= states[k].ba.sent
  {
    RunKeepsInv(p, states, acts, k);
    var s := states[k];
    assert s.ab.received <= s.ab.received + s.ab.buf;
    assert s.ba.received <= s.ba.received + s.ba.buf;
  }

  predicate Delivered(c: Copy) { c.eof && c.received == c.sent }

  lemma CaughtUp(c: Copy)
    requires CopyInv(c)
    ensures Delivered(c) <==> c.eof && c.buf == [] && c.taken == |c.sent|
  {
    assert |c.received| + |c.buf| == c.taken;
    if c.buf == [] {
      assert c.received + c.buf == c.received;
      assert c.taken == |c.sent| ==> c.sent[..c.taken] == c.sent;
    }
  }

  /** relayBidirectional and proxy: without error or cancellation, neither connection is closed before both
      whole streams are delivered, and no peer is told that a stream ends before it has all of it; and once a copy has
      returned, its peer has the whole stream and has been told that it ends. */
  lemma WaitingRelayDelivers(states: seq<State>, acts: seq<Action>, k: nat)
    requires IsRun(WaitBoth, states, acts) && k < |states| && Quiet(states[k])
    ensures states[k].aClosed || states[k].bClosed ==> Delivered(states[k].ab) && Delivered(states[k].ba)
    ensures states[k].ab.sawEof ==> Delivered(states[k].ab)
    ensures states[k].ba.sawEof ==> Delivered(states[k].ba)
    ensures states[k].ab.returned ==> states[k].ab.sawEof && Delivered(states[k].ab)
    ensures states[k].ba.returned ==> states[k].ba.sawEof && Delivered(states[k].ba)
  {
    RunKeepsInv(WaitBoth, states, acts, k);
    CaughtUp(states[k].ab);
    CaughtUp(states[k].ba);
  }

  lemma ToldAfter(p: Policy, states: seq<State>, acts: seq<Action>, k: nat, w: Way)
    requires IsRun(p, states, acts) && k < |acts|
    ensures acts[k] == Return(w) ==> Get(states[k + 1], w).returned && Get(states[k + 1], w).sawEof == (p.WaitBoth? && DstOpen(states[k], w))
    ensures Get(states[k], w).returned ==> Get(states[k + 1], w).returned && Get(states[k + 1], w).sawEof == Get(states[k], w).sawEof
  {
    RunKeepsInv(p, states, acts, k);
    TellStep(p, states[k], acts[k], w);
  }

  predicate ToldEnd(c: Copy) { c.returned && c.sawEof }

  lemma ToldStays(p: Policy, states: seq<State>, acts: seq<Action>, w: Way, k: nat, m: nat)
    requires IsRun(p, states, acts) && k <= m < |states| && ToldEnd(Get(states[k], w))
    ensures ToldEnd(Get(states[m], w))
  {
    var flags := seq(|states|, i requires 0 <= i < |states| => ToldEnd(Get(states[i], w)));
    forall i | 0 <= i < |flags| - 1 && flags[i] ensures flags[i + 1] {
      ToldAfter(p, states, acts, i, w);
    }
    Carried(flags, k, m);
  }

  /** Also with errors and cancellation: a copy that returned while its destination was open has told it. */
  lemma ReturnTells(states: seq<State>, acts: seq<Action>, w: Way, k: nat, m: nat)
    requires IsRun(WaitBoth, states, acts) && k < m < |states| && acts[k] == Return(w) && DstOpen(states[k], w)
    ensures ToldEnd(Get(states[m], w))
  {
    ToldAfter(WaitBoth, states, acts, k, w);
    ToldStays(WaitBoth, states, acts, w, k + 1, m);
  }

  /** bidirectionalCopy never tells anyone; its peers learn of the end by the close. */
  lemma ClosingRelayTellsNobody(states: seq<State>, acts: seq<Action>, k: nat)
    requires IsRun(CloseOnFirst, states, acts) && k < |states|
    ensures !states[k].ab.sawEof && !states[k].ba.sawEof
  {
    RunKeepsInv(CloseOnFirst, states, acts, k);
  }

  /** A cancelled relay can always close, and once it has, every copy can end and return. */
  lemma CancelledRelayCanEnd(p: Policy, s: State, w: Way)
    ensures s.cancelled && p.WaitBoth? ==> Enabled(p, s, CloseA) && Enabled(p, s, CloseB)
    ensures s.ab.done || s.ba.done ==> p.WaitBoth? || (Enabled(p, s, CloseA) && Enabled(p, s, CloseB))
    ensures (s.aClosed || s.bClosed) && !Get(s, w).done ==> Enabled(p, s, Abort(w))
    ensures Get(s, w).done && !Get(s, w).returned ==> Enabled(p, s, Return(w))
  {
  }

  /** bidirectionalCopy: without error, one of the two streams is whole when a connection closes. */
  lemma ClosingRelayDeliversOne(states: seq<State>, acts: seq<Action>, k: nat)
    requires IsRun(CloseOnFirst, states, acts) && k < |states| && !states[k].fault
    ensures states[k].aClosed || states[k].bClosed ==> Delivered(states[k].ab) || Delivered(states[k].ba)
  {
    RunKeepsInv(CloseOnFirst, states, acts, k);
    CaughtUp(states[k].ab);
    CaughtUp(states[k].ba);
  }

  // --- When bidirectionalCopy loses nothing ------------------------------------------

  function Other(w: Way): Way { if w.AToB? then BToA else AToB }

  predicate Whole(c: Copy) { c.received == c.sent }

  predicate BothWhole(s: State) { Whole(s.ab) && Whole(s.ba) }

  /** What a peer may do without risk: it half-closes only once it has everything that the other has sent, and sends
      nothing to a peer that has half-closed. */
  predicate Polite(s: State, a: Action) {
    match a
    case PeerEof(w) => Whole(Get(s, Other(w)))
    case PeerSend(w, bytes) => bytes == [] || !Get(s, Other(w)).eof
    case _ => true
  }

  predicate SettledFor(s: State, w: Way) { Get(s, w).eof ==> Whole(Get(s, Other(w))) }

  /** A peer that has half-closed has everything that the other has sent. */
  predicate Settled(s: State) { SettledFor(s, AToB) && SettledFor(s, BToA) }

  lemma WholeIsIdle(c: Copy)
    requires CopyInv(c) && Whole(c)
    ensures c.buf == [] && c.taken == |c.sent|
  {
    assert |c.received| + |c.buf| == c.taken;
  }

  predicate PoliteFor(s: State, a: Action, w: Way) {
    && (a == PeerEof(w) ==> Whole(Get(s, Other(w))))
    && (a.PeerSend? && a.way == Other(w) && a.bytes != [] ==> !Get(s, w).eof)
  }

  lemma PoliteBothWays(s: State, a: Action)
    ensures Polite(s, a) <==> PoliteFor(s, a, AToB) && PoliteFor(s, a, BToA)
  {
  }

  /** A step on a whole stream leaves it whole exactly unless it adds bytes. */
  lemma WholeStep(c: Copy, a: Action, halfClose: bool)
    requires CopyInv(c)
    requires a.PeerSend? ==> !c.eof
    requires a.Read? ==> !c.done && c.buf == [] && 1 <= a.n <= |c.sent| - c.taken
    requires a.Write? ==> !c.done && 1 <= a.n <= |c.buf|
    ensures Whole(c) ==> (Whole(ApplyToCopy(c, a, halfClose)) <==> !(a.PeerSend? && a.bytes != []))
  {
    if Whole(c) {
      WholeIsIdle(c);
    }
  }

  lemma EofStep(c: Copy, a: Action, halfClose: bool)
    requires a.Read? ==> c.taken + a.n <= |c.sent|
    requires a.Write? ==> a.n <= |c.buf|
    ensures ApplyToCopy(c, a, halfClose).eof <==> c.eof || a.PeerEof?
  {
  }

  /** A step on one direction, seen by the other's half-close. */
  lemma SettledByOwn(p: Policy, s: State, a: Action, w: Way)
    requires Enabled(p, s, a) && SettledFor(s, w) && Concerns(a, w)
    ensures SettledFor(Apply(p, s, a), w) <==> (a.PeerEof? ==> Whole(Get(s, Other(w))))
  {
    ApplyFrame(p, s, a, w);
    ApplyFrame(p, s, a, Other(w));
    EofStep(Get(s, w), a, p.WaitBoth? && DstOpen(s, w));
  }

  lemma SettledByOther(p: Policy, s: State, a: Action, w: Way)
    requires CopyInv(Get(s, Other(w))) && Enabled(p, s, a) && SettledFor(s, w) && Concerns(a, Other(w))
    ensures SettledFor(Apply(p, s, a), w) <==> (a.PeerSend? && a.bytes != [] ==> !Get(s, w).eof)
  {
    ApplyFrame(p, s, a, w);
    ApplyFrame(p, s, a, Other(w));
    WholeStep(Get(s, Other(w)), a, p.WaitBoth? && DstOpen(s, Other(w)));
  }

  lemma SettledOneWay(p: Policy, s: State, a: Action, w: Way)
    requires CopyInv(Get(s, Other(w))) && Enabled(p, s, a) && SettledFor(s, w)
    ensures SettledFor(Apply(p, s, a), w) <==> PoliteFor(s, a, w)
  {
    if Concerns(a, w) {
      SettledByOwn(p, s, a, w);
    } else if Concerns(a, Other(w)) {
      SettledByOther(p, s, a, w);
    } else {
      ApplyFrame(p, s, a, w);
      ApplyFrame(p, s, a, Other(w));
    }
  }

  /** Politeness is exactly what keeps a state settled. */
  lemma StepKeepsSettledIff(p: Policy, s: State, a: Action)
    requires Inv(p, s) && Enabled(p, s, a) && Settled(s)
    ensures Settled(Apply(p, s, a)) <==> Polite(s, a)
  {
    var t := Apply(p, s, a);
    SettledOneWay(p, s, a, AToB);
    SettledOneWay(p, s, a, BToA);
    PoliteBothWays(s, a);
  }

  lemma {:induction false} PoliteRunSettled(states: seq<State>, acts: seq<Action>, k: nat)
    requires IsRun(CloseOnFirst, states, acts) && k < |states|
    requires forall i :: 0 <= i < k ==> Polite(states[i], acts[i])
    ensures Settled(states[k])
  {
    if k > 0 {
      PoliteRunSettled(states, acts, k - 1);
      RunKeepsInv(CloseOnFirst, states, acts, k - 1);
      StepKeepsSettledIff(CloseOnFirst, states[k - 1], acts[k - 1]);
    }
  }

  /** bidirectionalCopy, between polite peers and without error: both streams are whole whenever a connection is
      closed, and stay so. */
  lemma PoliteRunDelivers(states: seq<State>, acts: seq<Action>, k: nat)
    requires IsRun(CloseOnFirst, states, acts) && k < |states| && !states[k].fault
    requires forall i :: 0 <= i < k ==> Polite(states[i], acts[i])
    ensures states[k].aClosed || states[k].bClosed ==> BothWhole(states[k])
  {
    PoliteRunSettled(states, acts, k);
    RunKeepsInv(CloseOnFirst, states, acts, k);
    CaughtUp(states[k].ab);
    CaughtUp(states[k].ba);
  }

  lemma Extend(p: Policy, states: seq<State>, acts: seq<Action>, a: Action) returns (states': seq<State>, acts': seq<Action>)
    requires IsRun(p, states, acts) && Enabled(p, states[|acts|], a)
    ensures IsRun(p, states', acts') && |acts'| == |acts| + 1
    ensures states'[|acts'|] == Apply(p, states[|acts|], a)
  {
    states', acts' := states + [Apply(p, states[|acts|], a)], acts + [a];
  }

  lemma AnswerThenHalfClose(answer: seq<int>) returns (states: seq<State>, acts: seq<Action>)
    ensures IsRun(CloseOnFirst, states, acts)
    ensures states[|acts|] ==
      INIT.(ba := IDLE.(sent := answer, eof := true), ab := IDLE.(eof := true, done := true, clean := true))
  {
    states, acts := [INIT], [];
    states, acts := Extend(CloseOnFirst, states, acts, PeerSend(BToA, answer));
    assert states[|acts|] == INIT.(ba := IDLE.(sent := answer));
    states, acts := Extend(CloseOnFirst, states, acts, PeerEof(BToA));
    states, acts := Extend(CloseOnFirst, states, acts, PeerEof(AToB));
    states, acts := Extend(CloseOnFirst, states, acts, ReadEof(AToB));
  }

  /** Its other stream can be cut short: B answers and A half-closes, but B's answer is never forwarded,
      although nothing failed and both goroutines have returned. */
  lemma ClosingRelayLosesData(answer: seq<int>) returns (states: seq<State>, acts: seq<Action>)
    requires answer != []
    ensures IsRun(CloseOnFirst, states, acts)
    ensures var s := states[|acts|];
            && Quiet(s) && s.ab.returned && s.ba.returned && s.ba.eof
            && s.ba.sent == answer && s.ba.received == []
  {
    states, acts := AnswerThenHalfClose(answer);
    states, acts := Extend(CloseOnFirst, states, acts, CloseB);
    states, acts := Extend(CloseOnFirst, states, acts, CloseA);
    states, acts := Extend(CloseOnFirst, states, acts, Return(AToB));
    states, acts := Extend(CloseOnFirst, states, acts, Abort(BToA));
    states, acts := Extend(CloseOnFirst, states, acts, Return(BToA));
  }

  // --- What one impolite step leads to -------------------------------------------------

  /** The relay's own steps, apart from errors. */
  predicate RelayStep(a: Action) { !a.PeerSend? && !a.PeerEof? && !a.Fault? && !a.Cancel? }

  /** The relay may go from `s` to `t` by these steps of its own. */
  ghost predicate Leads(s: State, acts: seq<Action>, t: State)
    decreases acts
  {
    if acts == [] then s == t
    else RelayStep(acts[0]) && Enabled(CloseOnFirst, s, acts[0]) && Leads(Apply(CloseOnFirst, s, acts[0]), acts[1..], t)
  }

  lemma {:induction false} LeadsOn(s: State, acts: seq<Action>, t: State, more: seq<Action>, u: State)
    requires Leads(s, acts, t) && Leads(t, more, u)
    ensures Leads(s, acts + more, u)
    decreases acts
  {
    if acts == [] {
      assert acts + more == more;
    } else {
      assert (acts + more)[1..] == acts[1..] + more;
      LeadsOn(Apply(CloseOnFirst, s, acts[0]), acts[1..], t, more, u);
    }
  }

  lemma OneMore(s: State, acts: seq<Action>, t: State, a: Action) returns (acts': seq<Action>, t': State)
    requires Leads(s, acts, t) && RelayStep(a) && Enabled(CloseOnFirst, t, a)
    ensures Leads(s, acts', t') && t' == Apply(CloseOnFirst, t, a)
  {
    acts', t' := acts + [a], Apply(CloseOnFirst, t, a);
    assert [a][1..] == [];
    assert Leads(t, [a], t');
    LeadsOn(s, acts, t, [a], t');
  }

  predicate Unclosed(s: State) { !s.aClosed && !s.bClosed }

  /** The copy `w` writes and reads what is left of its stream, up to the end; the other direction stands still. */
  lemma DrainOne(s: State, w: Way) returns (acts: seq<Action>, t: State)
    requires CopyInv(Get(s, w)) && Unclosed(s) && !Get(s, w).done && Get(s, w).eof
    ensures Leads(s, acts, t)
    ensures Unclosed(t) && t.fault == s.fault && Get(t, Other(w)) == Get(s, Other(w)) && Get(t, w).done && !Get(t, w).returned
  {
    acts, t := [], s;
    if Get(t, w).buf != [] {
      acts, t := OneMore(s, acts, t, Write(w, |Get(t, w).buf|));
    }
    assert Get(t, w) == Get(s, w).(buf := [], received := Get(t, w).received);
    var n := |Get(t, w).sent| - Get(t, w).taken;
    if n > 0 {
      acts, t := OneMore(s, acts, t, Read(w, n));
      assert |Get(t, w).buf| == n;
      acts, t := OneMore(s, acts, t, Write(w, n));
    }
    acts, t := OneMore(s, acts, t, ReadEof(w));
  }

  lemma CloseBoth(s: State) returns (acts: seq<Action>)
    requires s.ab.done || s.ba.done
    ensures Leads(s, acts, s.(aClosed := true, bClosed := true))
  {
    var t;
    acts, t := OneMore(s, [], s, CloseA);
    acts, t := OneMore(s, acts, t, CloseB);
  }

  lemma ReturnOne(s: State, w: Way) returns (acts: seq<Action>, t: State)
    requires s.aClosed && s.bClosed && (Get(s, w).returned ==> Get(s, w).done)
    ensures Leads(s, acts, t)
    ensures t == Put(s, w, Get(t, w)) && Get(t, w).returned
    ensures Get(t, w).received == Get(s, w).received && Get(t, w).sent == Get(s, w).sent
  {
    acts, t := [], s;
    if !Get(s, w).done {
      acts, t := OneMore(s, acts, t, Abort(w));
    }
    if !Get(s, w).returned {
      acts, t := OneMore(s, acts, t, Return(w));
    }
  }

  /** With one copy done, the relay closes both connections and both goroutines return. */
  lemma CloseDown(s: State) returns (acts: seq<Action>, t: State)
    requires s.ab.done || s.ba.done
    requires (s.ab.returned ==> s.ab.done) && (s.ba.returned ==> s.ba.done)
    ensures Leads(s, acts, t)
    ensures t.aClosed && t.bClosed && t.fault == s.fault && t.ab.returned && t.ba.returned
    ensures t.ab.received == s.ab.received && t.ab.sent == s.ab.sent
    ensures t.ba.received == s.ba.received && t.ba.sent == s.ba.sent
  {
    acts := CloseBoth(s);
    var closed := s.(aClosed := true, bClosed := true);
    var more, t1 := ReturnOne(closed, AToB);
    LeadsOn(s, acts, closed, more, t1);
    acts := acts + more;
    more, t := ReturnOne(t1, BToA);
    LeadsOn(s, acts, t1, more, t);
    acts := acts + more;
  }

  /** Both goroutines have returned, and the stream has lost bytes for good. */
  predicate Lost(s: State) {
    s.aClosed && s.bClosed && !s.fault && s.ab.returned && s.ba.returned && !BothWhole(s)
  }

  /** The converse: once a peer has half-closed without having everything, bidirectionalCopy may go on, with no error
      and no further step of a peer, to close both connections with bytes missing. */
  lemma UnsettledLosesData(s: State, w: Way) returns (acts: seq<Action>, t: State)
    requires Inv(CloseOnFirst, s) && Unclosed(s) && !s.fault && !SettledFor(s, w)
    ensures Leads(s, acts, t) && Lost(t)
  {
    CaughtUp(Get(s, Other(w)));
    acts, t := [], s;
    if !Get(s, w).done {
      acts, t := DrainOne(s, w);
    }
    var more, u := CloseDown(t);
    LeadsOn(s, acts, t, more, u);
    acts, t := acts + more, u;
  }

  lemma ImpoliteUnsettles(s: State, a: Action, w: Way)
    requires Enabled(CloseOnFirst, s, a) && CopyInv(Get(s, Other(w))) && !Polite(s, a)
    requires w == if a.PeerEof? then a.way else Other(a.way)
    ensures !SettledFor(Apply(CloseOnFirst, s, a), w)
    ensures Unclosed(Apply(CloseOnFirst, s, a)) == Unclosed(s) && Apply(CloseOnFirst, s, a).fault == s.fault
  {
    ApplyFrame(CloseOnFirst, s, a, w);
    ApplyFrame(CloseOnFirst, s, a, Other(w));
    var c := Get(s, Other(w));
    assert |c.received| + |c.buf| == c.taken;
  }

  /** So one impolite step, in any reachable state without error in which nothing is closed, can cost bytes. */
  lemma ImpoliteStepLosesData(states: seq<State>, acts: seq<Action>, a: Action)
    returns (more: seq<Action>, t: State)
    requires IsRun(CloseOnFirst, states, acts) && Enabled(CloseOnFirst, states[|acts|], a)
    requires Unclosed(states[|acts|]) && !states[|acts|].fault && !Polite(states[|acts|], a)
    ensures Leads(Apply(CloseOnFirst, states[|acts|], a), more, t) && Lost(t)
  {
    var s := states[|acts|];
    RunKeepsInv(CloseOnFirst, states, acts, |acts|);
    StepKeepsInv(CloseOnFirst, s, a);
    var w := if a.PeerEof? then a.way else Other(a.way);
    ImpoliteUnsettles(s, a, w);
    more, t := UnsettledLosesData(Apply(CloseOnFirst, s, a), w);
  }
}
