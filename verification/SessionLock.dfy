/** The session lock (pkg/librevm/machine.go): any number of sessions open "<workspace>.lock", take flock on
    its inode, push their two cleanup callbacks, use the workspace, and in the end claim and run the callbacks, which
    remove the workspace, unlock, and then unlink the lock file by path. A session's process may die at any point,
    which closes its file and so drops its lock. */
module SessionLock {
  import Cleanup

  type Path(==, !new) = string

  /** What a session's descriptor of the lock file is good for. */
  datatype Phase =
    | Opened(ino: nat)    // lock file open, waiting for flock
    | Locked(ino: nat)    // holding the lock
    | Released            // unlocked, which closes the file
    | Dead

  /** The single steps of the cleanup callbacks. */
  datatype Step = RemoveTree | DropLock | RemoveEntry

  function StepsOf(c: Cleanup.Teardown): seq<Step> {
    match c
    case RemoveWorkspace => [RemoveTree]
    case UnlockAndUnlink => [DropLock, RemoveEntry]
  }

  function StepsOfAll(cs: seq<Cleanup.Teardown>): seq<Step> {
    if cs == [] then [] else StepsOf(cs[0]) + StepsOfAll(cs[1..])
  }

  /** `stack` are the callbacks pushed and not claimed, `todo` the steps of the claimed ones that are still to run. */
  datatype Session = Session(path: Path, phase: Phase, stack: seq<Cleanup.Teardown>, claimed: bool, todo: seq<Step>)

  /** A file in a workspace, with the session that wrote it. */
  datatype File = File(path: Path, owner: nat, name: nat)

  /** `entries` is the directory: which inode a lock path names, if any. Inodes are numbered in the order of
      their creation, and `home` is the path that each was created at. */
  datatype State = State(sessions: seq<Session>, entries: map<Path, nat>, home: seq<Path>, files: set<File>)

  datatype Action =
    | OpenLock(path: Path)
    | Acquire(sid: nat)
    | Push(sid: nat)
    | WriteFile(sid: nat, name: nat)
    | Claim(sid: nat)
    | RemoveAll(sid: nat, victims: set<File>, done: bool)  // one step of os.RemoveAll, perhaps the last
    | Unlock(sid: nat)
    | Unlink(sid: nat)
    | Die(sid: nat)

  const INIT := State([], map[], [], {})

  predicate HasOpen(p: Phase) { p.Opened? || p.Locked? }

  predicate HoldsIno(s: State, sid: nat, ino: nat) {
    sid < |s.sessions| && s.sessions[sid].phase == Locked(ino)
  }

  /** Session `sid` is between lock and Unlock on this path. */
  predicate HoldsPath(s: State, sid: nat, path: Path) {
    sid < |s.sessions| && s.sessions[sid].phase.Locked? && s.sessions[sid].path == path
  }

  predicate OpenAt(s: State, sid: nat, path: Path) {
    sid < |s.sessions| && HasOpen(s.sessions[sid].phase) && s.sessions[sid].path == path
  }

  /** setupWorkspace has returned, and the process is alive. */
  predicate SetUp(s: State, sid: nat) {
    sid < |s.sessions| && !s.sessions[sid].phase.Opened? && !s.sessions[sid].phase.Dead?
  }

  /** The next step of the callbacks that the session is running. The lock plays no part in this. */
  predicate Next(s: State, sid: nat, step: Step) {
    SetUp(s, sid) && s.sessions[sid].todo != [] && s.sessions[sid].todo[0] == step
  }

  ghost predicate Enabled(s: State, a: Action) {
    match a
    case OpenLock(_) => true
    case Acquire(i) =>
      i < |s.sessions| && s.sessions[i].phase.Opened? && forall j: nat :: !HoldsIno(s, j, s.sessions[i].phase.ino)
    case Push(i) => SetUp(s, i) && !s.sessions[i].claimed && |s.sessions[i].stack| < |Cleanup.PUSHED|
    case WriteFile(i, _) => SetUp(s, i) && !s.sessions[i].claimed
    case Claim(i) => SetUp(s, i) && !s.sessions[i].claimed
    case RemoveAll(i, victims, _) =>
      Next(s, i, RemoveTree) && victims <= s.files && forall f :: f in victims ==> f.path == s.sessions[i].path
    case Unlock(i) => Next(s, i, DropLock)
    case Unlink(i) => Next(s, i, RemoveEntry)
    case Die(i) => i < |s.sessions|
  }

  function Put(s: State, i: nat, session: Session): State
    requires i < |s.sessions|
  {
    s.(sessions := s.sessions[i := session])
  }

  /** The effect of a step on the session that makes it. */
  function Moved(x: Session, a: Action): Session
    requires a.Acquire? ==> x.phase.Opened?
    requires a.Push? ==> |x.stack| < |Cleanup.PUSHED|
    requires a.RemoveAll? || a.Unlock? || a.Unlink? ==> x.todo != []
  {
    match a
    case Acquire(_) => x.(phase := Locked(x.phase.ino))
    case Push(_) => x.(stack := x.stack + [Cleanup.PUSHED[|x.stack|]])
    case Claim(_) => x.(claimed := true, stack := [], todo := StepsOfAll(Cleanup.Reverse(x.stack)))
    case RemoveAll(_, _, done) => if done then x.(todo := x.todo[1..]) else x
    case Unlock(_) => x.(phase := Released, todo := x.todo[1..])
    case Unlink(_) => x.(todo := x.todo[1..])
    case Die(_) => x.(phase := Dead)
    case _ => x
  }

  ghost function Apply(s: State, a: Action): State
    requires Enabled(s, a)
  {
    match a
    case OpenLock(p) =>
      // O_CREATE: the inode the path names, or a new one
      var ino := if p in s.entries then s.entries[p] else |s.home|;
      State(s.sessions + [Session(p, Opened(ino), [], false, [])], s.entries[p := ino],
            if p in s.entries then s.home else s.home + [p], s.files)
    case WriteFile(i, name) => s.(files := s.files + {File(s.sessions[i].path, i, name)})
    case RemoveAll(i, victims, _) => Put(s, i, Moved(s.sessions[i], a)).(files := s.files - victims)
    case Unlink(i) => Put(s, i, Moved(s.sessions[i], a)).(entries := s.entries - {s.sessions[i].path})
    case _ => Put(s, a.sid, Moved(s.sessions[a.sid], a))
  }

  ghost predicate IsPath(states: seq<State>, acts: seq<Action>) {
    && |states| == |acts| + 1
    && forall i :: 0 <= i < |acts| ==> Enabled(states[i], acts[i]) && states[i + 1] == Apply(states[i], acts[i])
  }

  ghost predicate IsRun(states: seq<State>, acts: seq<Action>) {
    IsPath(states, acts) && states[0] == INIT
  }

  // --- Unconditionally: one holder per inode ----------------------------------------

  ghost predicate Homes(s: State) {
    && (forall p :: p in s.entries ==> s.entries[p] < |s.home| && s.home[s.entries[p]] == p)
    && (forall i :: 0 <= i < |s.sessions| && HasOpen(s.sessions[i].phase) ==>
          s.sessions[i].phase.ino < |s.home| && s.home[s.sessions[i].phase.ino] == s.sessions[i].path)
  }

  ghost predicate OneHolder(s: State) {
    forall i: nat, j: nat ::
      i < |s.sessions| && s.sessions[i].phase.Locked? && HoldsIno(s, j, s.sessions[i].phase.ino) ==> i == j
  }

  /** The steps of both callbacks, in the order in which a claim runs them. */
  const TEARDOWN := [RemoveTree, DropLock, RemoveEntry]

  /** Where a session's callbacks are, in terms of its lock: as long as the workspace is still to be removed, or
      anything is pushed, the lock is held. */
  ghost predicate InOrder(x: Session) {
    match x.phase
    case Opened(_) => !x.claimed && x.stack == [] && x.todo == []
    case Locked(_) =>
      if x.claimed then x.stack == [] && x.todo in {TEARDOWN, TEARDOWN[1..], []}
      else x.stack <= Cleanup.PUSHED && x.todo == []
    case Released => x.claimed && x.stack == [] && x.todo in {TEARDOWN[2..], []}
    case Dead => true
  }

  ghost predicate AllInOrder(s: State) {
    forall i :: 0 <= i < |s.sessions| ==> InOrder(s.sessions[i])
  }

  ghost predicate Inv(s: State) { Homes(s) && OneHolder(s) && AllInOrder(s) }

  /** A claim turns the stack around: the workspace goes first, then the lock, then the lock file. */
  lemma ClaimReverses(stack: seq<Cleanup.Teardown>)
    requires stack <= Cleanup.PUSHED
    ensures StepsOfAll(Cleanup.Reverse(stack)) in {[], TEARDOWN[1..], TEARDOWN}
  {
    var r := Cleanup.Reverse(stack);
    if |stack| == 1 {
      assert r == [Cleanup.UnlockAndUnlink] && r[1..] == [];
      assert StepsOfAll(r) == [DropLock, RemoveEntry] + StepsOfAll(r[1..]) == TEARDOWN[1..];
    } else if |stack| == 2 {
      assert r == [Cleanup.RemoveWorkspace, Cleanup.UnlockAndUnlink] && r[1..] == [Cleanup.UnlockAndUnlink] && r[1..][1..] == [];
      assert StepsOfAll(r[1..]) == [DropLock, RemoveEntry] + StepsOfAll(r[1..][1..]) == TEARDOWN[1..];
      assert StepsOfAll(r) == [RemoveTree] + StepsOfAll(r[1..]) == TEARDOWN;
    }
  }

  lemma MoveKeepsOrder(s: State, a: Action)
    requires Enabled(s, a) && !a.OpenLock? && InOrder(s.sessions[a.sid])
    ensures InOrder(Moved(s.sessions[a.sid], a))
  {
    var x := s.sessions[a.sid];
    assert TEARDOWN[1..] == [DropLock, RemoveEntry] && TEARDOWN[1..][1..] == TEARDOWN[2..] == [RemoveEntry] && TEARDOWN[2..][1..] == [];
    match a
    case Claim(_) => ClaimReverses(x.stack);
    case Push(_) => assert x.stack + [Cleanup.PUSHED[|x.stack|]] <= Cleanup.PUSHED;
    case _ =>
  }

  lemma StepKeepsOrder(s: State, a: Action)
    requires AllInOrder(s) && Enabled(s, a)
    ensures AllInOrder(Apply(s, a))
  {
    if !a.OpenLock? {
      MoveKeepsOrder(s, a);
    }
  }

  /** How a step changes who has what open, and what paths name. */
  lemma StepFrame(s: State, a: Action, i: nat)
    requires Enabled(s, a) && i < |s.sessions|
    ensures var t := Apply(s, a);
            && i < |t.sessions| && t.sessions[i].path == s.sessions[i].path
            && (t.sessions[i].phase == s.sessions[i].phase ||
                (a == Acquire(i) && s.sessions[i].phase.Opened? && t.sessions[i].phase == Locked(s.sessions[i].phase.ino)) ||
                (a in {Unlock(i), Die(i)} && !HasOpen(t.sessions[i].phase)))
  {
  }

  lemma StepKeepsHomes(s: State, a: Action)
    requires Homes(s) && Enabled(s, a)
    ensures Homes(Apply(s, a))
  {
    var t := Apply(s, a);
    forall i | 0 <= i < |t.sessions| && HasOpen(t.sessions[i].phase)
      ensures t.sessions[i].phase.ino < |t.home| && t.home[t.sessions[i].phase.ino] == t.sessions[i].path
    {
      if i < |s.sessions| {
        StepFrame(s, a, i);
      }
    }
  }

  lemma HeldBefore(s: State, a: Action, i: nat, ino: nat)
    requires Enabled(s, a) && HoldsIno(Apply(s, a), i, ino)
    ensures HoldsIno(s, i, ino) || (a == Acquire(i) && forall j: nat :: !HoldsIno(s, j, ino))
  {
    if i < |s.sessions| {
      StepFrame(s, a, i);
    }
  }

  lemma StepKeepsHolder(s: State, a: Action)
    requires OneHolder(s) && Enabled(s, a)
    ensures OneHolder(Apply(s, a))
  {
    var t := Apply(s, a);
    forall i: nat, j: nat | i < |t.sessions| && t.sessions[i].phase.Locked? && HoldsIno(t, j, t.sessions[i].phase.ino)
      ensures i == j
    {
      var ino := t.sessions[i].phase.ino;
      assert HoldsIno(t, i, ino);
      HeldBefore(s, a, i, ino);
      HeldBefore(s, a, j, ino);
    }
  }

  lemma StepKeepsInv(s: State, a: Action)
    requires Inv(s) && Enabled(s, a)
    ensures Inv(Apply(s, a))
  {
    StepKeepsHomes(s, a);
    StepKeepsHolder(s, a);
    StepKeepsOrder(s, a);
  }

  lemma {:induction false} PathKeepsInv(states: seq<State>, acts: seq<Action>, k: nat)
    requires IsPath(states, acts) && Inv(states[0]) && k < |states|
    ensures Inv(states[k])
  {
    if k > 0 {
      PathKeepsInv(states, acts, k - 1);
      StepKeepsInv(states[k - 1], acts[k - 1]);
    }
  }

  /** In every run, process deaths included, an inode has at most one holder. */
  lemma OneHolderPerInode(states: seq<State>, acts: seq<Action>, k: nat, ino: nat, i: nat, j: nat)
    requires IsRun(states, acts) && k < |states|
    ensures HoldsIno(states[k], i, ino) && HoldsIno(states[k], j, ino) ==> i == j
  {
    PathKeepsInv(states, acts, k);
  }

  /** The order of the cleanup stack is what protects the workspace: whenever a session comes to remove it, or to
      unlock, it still holds its lock, and when it unlinks the lock file it does not. */
  lemma RemovesUnderLock(states: seq<State>, acts: seq<Action>, k: nat)
    requires IsRun(states, acts) && k < |acts|
    ensures acts[k].RemoveAll? || acts[k].Unlock? ==> states[k].sessions[acts[k].sid].phase.Locked?
    ensures acts[k].Unlink? ==> states[k].sessions[acts[k].sid].phase.Released?
    ensures acts[k].WriteFile? ==> states[k].sessions[acts[k].sid].phase.Locked?
  {
    PathKeepsInv(states, acts, k);
    assert Enabled(states[k], acts[k]);
    if !acts[k].OpenLock? {
      assert InOrder(states[k].sessions[acts[k].sid]);
      assert TEARDOWN[1..] == [DropLock, RemoveEntry] && TEARDOWN[2..] == [RemoveEntry];
    }
  }

  // --- Conditionally: one holder per path --------------------------------------------

  /** Every session that has this path's lock file open has the file that the path still names. */
  ghost predicate Agree(s: State, path: Path) {
    forall i: nat :: OpenAt(s, i, path) ==> path in s.entries && s.sessions[i].phase.ino == s.entries[path]
  }

  /** An unlink of a lock file that no other session has open. */
  ghost predicate GoodUnlink(s: State, a: Action) {
    a.Unlink? && a.sid < |s.sessions| ==>
      var p := s.sessions[a.sid].path;
      forall i: nat :: i != a.sid && OpenAt(s, i, p) && p in s.entries ==> s.sessions[i].phase.ino != s.entries[p]
  }

  lemma UnlinkerIsDone(s: State, a: Action)
    requires AllInOrder(s) && Enabled(s, a) && a.Unlink?
    ensures s.sessions[a.sid].phase.Released?
  {
    assert InOrder(s.sessions[a.sid]);
    assert TEARDOWN[1..] == [DropLock, RemoveEntry];
  }

  lemma StepKeepsAgree(s: State, a: Action, path: Path)
    requires Inv(s) && Enabled(s, a) && Agree(s, path) && GoodUnlink(s, a)
    ensures Agree(Apply(s, a), path)
  {
    var t := Apply(s, a);
    forall i: nat | OpenAt(t, i, path)
      ensures path in t.entries && t.sessions[i].phase.ino == t.entries[path]
    {
      if i < |s.sessions| {
        StepFrame(s, a, i);
        assert OpenAt(s, i, path);
        if a.Unlink? {
          UnlinkerIsDone(s, a);
        }
      }
    }
  }

  /** The condition is exact: an unlink leaves the sessions of its path in agreement iff it is a good one. */
  lemma UnlinkKeepsAgreeIff(s: State, a: Action)
    requires Inv(s) && Enabled(s, a) && a.Unlink? && Agree(s, s.sessions[a.sid].path)
    ensures Agree(Apply(s, a), s.sessions[a.sid].path) <==> GoodUnlink(s, a)
  {
    var t, p := Apply(s, a), s.sessions[a.sid].path;
    assert p !in t.entries;
    if GoodUnlink(s, a) {
      StepKeepsAgree(s, a, p);
    } else {
      var i: nat :| i != a.sid && OpenAt(s, i, p) && p in s.entries && s.sessions[i].phase.ino == s.entries[p];
      StepFrame(s, a, i);
      assert OpenAt(t, i, p);
    }
  }

  lemma {:induction false} PathKeepsAgree(states: seq<State>, acts: seq<Action>, k: nat, path: Path)
    requires IsPath(states, acts) && Inv(states[0]) && Agree(states[0], path) && k < |states|
    requires forall j :: 0 <= j < |acts| ==> GoodUnlink(states[j], acts[j])
    ensures Agree(states[k], path)
  {
    if k > 0 {
      PathKeepsInv(states, acts, k - 1);
      PathKeepsAgree(states, acts, k - 1, path);
      StepKeepsAgree(states[k - 1], acts[k - 1], path);
    }
  }

  lemma AgreeExcludes(s: State, path: Path, i: nat, j: nat)
    requires Inv(s) && Agree(s, path) && HoldsPath(s, i, path) && HoldsPath(s, j, path)
    ensures i == j
  {
    assert OpenAt(s, i, path) && OpenAt(s, j, path);
    assert HoldsIno(s, j, s.sessions[i].phase.ino);
  }

  /** If no unlink hits a lock file that another session has open, at most one session per path is ever between
      lock and Unlock. */
  lemma MutualExclusion(states: seq<State>, acts: seq<Action>, k: nat, path: Path, i: nat, j: nat)
    requires IsRun(states, acts) && k < |states|
    requires forall m :: 0 <= m < |acts| ==> GoodUnlink(states[m], acts[m])
    ensures HoldsPath(states[k], i, path) && HoldsPath(states[k], j, path) ==> i == j
  {
    PathKeepsInv(states, acts, k);
    PathKeepsAgree(states, acts, k, path);
    if HoldsPath(states[k], i, path) && HoldsPath(states[k], j, path) {
      AgreeExcludes(states[k], path, i, j);
    }
  }

  /** Does this step end session `sid`'s use of its workspace? */
  predicate Ends(a: Action, sid: nat) { !a.OpenLock? && a.sid == sid && (a.RemoveAll? || a.Unlock? || a.Die?) }

  lemma StaysLocked(s: State, a: Action, sid: nat, path: Path)
    requires Enabled(s, a) && HoldsPath(s, sid, path) && !Ends(a, sid)
    ensures HoldsPath(Apply(s, a), sid, path)
  {
    StepFrame(s, a, sid);
  }

  /** Under the same condition, a file that a session wrote under its lock stays until that session itself removes
      the workspace, unlocks or dies. */
  lemma {:induction false} WrittenFilesStay(states: seq<State>, acts: seq<Action>, w: nat, k: nat)
    requires IsRun(states, acts) && w < k < |states| && acts[w].WriteFile?
    requires forall m :: 0 <= m < |acts| ==> GoodUnlink(states[m], acts[m])
    requires forall m :: w < m < k ==> !Ends(acts[m], acts[w].sid)
    ensures var sid, path := acts[w].sid, states[w].sessions[acts[w].sid].path;
            HoldsPath(states[k], sid, path) && File(path, sid, acts[w].name) in states[k].files
    decreases k
  {
    var sid := acts[w].sid;
    var path := states[w].sessions[sid].path;
    RemovesUnderLock(states, acts, w);
    if k > w + 1 {
      WrittenFilesStay(states, acts, w, k - 1);
      RemovesUnderLock(states, acts, k - 1);
      if acts[k - 1].RemoveAll? {
        MutualExclusion(states, acts, k - 1, path, acts[k - 1].sid, sid);
      }
    }
    StaysLocked(states[k - 1], acts[k - 1], sid, path);
  }

  // --- What a bad unlink leads to -----------------------------------------------------

  lemma Extend(states: seq<State>, acts: seq<Action>, a: Action) returns (states': seq<State>, acts': seq<Action>)
    requires IsPath(states, acts) && Enabled(states[|acts|], a) && Inv(states[|acts|])
    ensures IsPath(states', acts') && |acts'| == |acts| + 1 && acts' == acts + [a] && states'[0] == states[0]
    ensures states'[|acts'|] == Apply(states[|acts|], a) && Inv(states'[|acts'|])
  {
    StepKeepsInv(states[|acts|], a);
    states', acts' := states + [Apply(states[|acts|], a)], acts + [a];
  }

  ghost predicate Violated(s: State, path: Path) {
    exists i: nat, j: nat :: i != j && HoldsPath(s, i, path) && HoldsPath(s, j, path)
  }

  /** `t` is `s` with the same files open and perhaps more locks taken. */
  ghost predicate OnlyLocked(s: State, t: State) {
    && t.entries == s.entries && |t.sessions| == |s.sessions|
    && (forall j :: 0 <= j < |s.sessions| ==> t.sessions[j].path == s.sessions[j].path)
    && (forall j :: 0 <= j < |s.sessions| && HasOpen(s.sessions[j].phase) ==>
          HasOpen(t.sessions[j].phase) && t.sessions[j].phase.ino == s.sessions[j].phase.ino)
    && (forall j: nat, ino :: HoldsIno(s, j, ino) ==> HoldsIno(t, j, ino))
  }

  /** Makes some session hold the inode that session `i` has open. */
  lemma MakeHeld(states: seq<State>, acts: seq<Action>, i: nat) returns (states': seq<State>, acts': seq<Action>, h: nat)
    requires IsPath(states, acts) && Inv(states[|acts|])
    requires i < |states[|acts|].sessions| && HasOpen(states[|acts|].sessions[i].phase)
    ensures IsPath(states', acts') && states'[0] == states[0] && Inv(states'[|acts'|])
    ensures HoldsIno(states'[|acts'|], h, states[|acts|].sessions[i].phase.ino)
    ensures OnlyLocked(states[|acts|], states'[|acts'|])
    ensures acts' == acts || acts' == acts + [Acquire(i)]
  {
    var s := states[|acts|];
    var ino := s.sessions[i].phase.ino;
    if j: nat :| HoldsIno(s, j, ino) {
      states', acts', h := states, acts, j;
    } else {
      assert !HoldsIno(s, i, ino);
      states', acts' := Extend(states, acts, Acquire(i));
      h := i;
    }
  }

  lemma HolderIsAtHome(s: State, h: nat, ino: nat)
    requires Homes(s) && HoldsIno(s, h, ino)
    ensures ino < |s.home| && HoldsPath(s, h, s.home[ino])
  {
  }

  lemma OpenNamed(s: State, path: Path, i: nat) returns (states: seq<State>, acts: seq<Action>)
    requires Inv(s) && OpenAt(s, i, path) && !(path in s.entries && s.sessions[i].phase.ino == s.entries[path])
    ensures IsPath(states, acts) && states[0] == s && acts == [OpenLock(path)] && Inv(states[1])
    ensures OpenAt(states[1], i, path) && OpenAt(states[1], |s.sessions|, path)
    ensures states[1].sessions[i].phase.ino != states[1].sessions[|s.sessions|].phase.ino
  {
    states, acts := Extend([s], [], OpenLock(path));
  }

  lemma StillOpen(s: State, t: State, i: nat, path: Path)
    requires OnlyLocked(s, t) && OpenAt(s, i, path)
    ensures OpenAt(t, i, path) && t.sessions[i].phase.ino == s.sessions[i].phase.ino
  {
  }

  lemma TwoHolders(t: State, path: Path, i: nat, n: nat, h: nat, g: nat, orphan: nat, named: nat)
    requires Inv(t) && HoldsIno(t, h, orphan) && HoldsIno(t, g, named) && orphan != named
    requires OpenAt(t, i, path) && t.sessions[i].phase.ino == orphan
    requires OpenAt(t, n, path) && t.sessions[n].phase.ino == named
    ensures Violated(t, path)
  {
    HolderIsAtHome(t, h, orphan);
    HolderIsAtHome(t, g, named);
    assert h != g && HoldsPath(t, h, path) && HoldsPath(t, g, path);
  }

  lemma HoldBoth(states0: seq<State>, acts0: seq<Action>, path: Path, i: nat, n: nat) returns (states: seq<State>, acts: seq<Action>)
    requires IsPath(states0, acts0) && Inv(states0[|acts0|])
    requires OpenAt(states0[|acts0|], i, path) && OpenAt(states0[|acts0|], n, path)
    requires states0[|acts0|].sessions[i].phase.ino != states0[|acts0|].sessions[n].phase.ino
    ensures IsPath(states, acts) && states[0] == states0[0] && Violated(states[|acts|], path)
    ensures acts in {acts0, acts0 + [Acquire(i)], acts0 + [Acquire(n)], acts0 + [Acquire(i), Acquire(n)]}
  {
    var s1, h, g := states0[|acts0|], 0, 0;
    states, acts, h := MakeHeld(states0, acts0, i);
    var s2 := states[|acts|];
    StillOpen(s1, s2, i, path);
    StillOpen(s1, s2, n, path);
    assert acts0 + [Acquire(i)] + [Acquire(n)] == acts0 + [Acquire(i), Acquire(n)];
    states, acts, g := MakeHeld(states, acts, n);
    var s3 := states[|acts|];
    StillOpen(s2, s3, i, path);
    StillOpen(s2, s3, n, path);
    TwoHolders(s3, path, i, n, h, g, s1.sessions[i].phase.ino, s1.sessions[n].phase.ino);
  }

  /** Once a session has a lock file open that its path no longer names, exclusion can be broken with no further
      unlink: its holder and the holder of the file that the path names are both between lock and Unlock. */
  lemma DisagreementBreaksExclusion(s: State, path: Path) returns (states: seq<State>, acts: seq<Action>)
    requires Inv(s) && !Agree(s, path)
    ensures IsPath(states, acts) && states[0] == s
    ensures forall j :: 0 <= j < |acts| ==> !acts[j].Unlink?
    ensures Violated(states[|acts|], path)
  {
    var i: nat :| OpenAt(s, i, path) && !(path in s.entries && s.sessions[i].phase.ino == s.entries[path]);
    states, acts := OpenNamed(s, path, i);
    states, acts := HoldBoth(states, acts, path, i, |s.sessions|);
  }

  // --- The failure, from the start -------------------------------------------------------

  /** A session that holds its lock and has pushed both callbacks. */
  function Running(path: Path, ino: nat): Session { Session(path, Locked(ino), Cleanup.PUSHED, false, []) }

  function Waiting(path: Path, ino: nat): Session { Session(path, Opened(ino), [], false, []) }

  /** One that has run all its callbacks but the last step. */
  function AboutToUnlink(path: Path): Session { Session(path, Released, [], true, [RemoveEntry]) }

  /** Session `i` takes the lock and pushes its callbacks. */
  lemma StartUp(states0: seq<State>, acts0: seq<Action>, i: nat, path: Path, ino: nat)
    returns (states: seq<State>, acts: seq<Action>)
    requires IsPath(states0, acts0) && Inv(states0[|acts0|]) && i < |states0[|acts0|].sessions|
    requires states0[|acts0|].sessions[i] == Waiting(path, ino) && forall j: nat :: !HoldsIno(states0[|acts0|], j, ino)
    ensures IsPath(states, acts) && states[0] == states0[0] && Inv(states[|acts|])
    ensures states[|acts|] == Put(states0[|acts0|], i, Running(path, ino))
  {
    states, acts := Extend(states0, acts0, Acquire(i));
    states, acts := Extend(states, acts, Push(i));
    assert states[|acts|].sessions[i].stack == [Cleanup.UnlockAndUnlink];
    states, acts := Extend(states, acts, Push(i));
    assert states[|acts|].sessions[i].stack == Cleanup.PUSHED;
  }

  /** Session `i` claims its callbacks. */
  lemma BeginTeardown(states0: seq<State>, acts0: seq<Action>, i: nat, path: Path, ino: nat)
    returns (states: seq<State>, acts: seq<Action>)
    requires IsPath(states0, acts0) && Inv(states0[|acts0|]) && i < |states0[|acts0|].sessions|
    requires states0[|acts0|].sessions[i] == Running(path, ino)
    ensures IsPath(states, acts) && states[0] == states0[0] && Inv(states[|acts|])
    ensures states[|acts|] == Put(states0[|acts0|], i, Session(path, Locked(ino), [], true, TEARDOWN))
  {
    states, acts := Extend(states0, acts0, Claim(i));
    var r := Cleanup.Reverse(Cleanup.PUSHED);
    assert r == [Cleanup.RemoveWorkspace, Cleanup.UnlockAndUnlink] && r[1..] == [Cleanup.UnlockAndUnlink] && r[1..][1..] == [];
    assert StepsOfAll(r[1..]) == [DropLock, RemoveEntry] + StepsOfAll([]);
    assert StepsOfAll(r) == [RemoveTree] + StepsOfAll(r[1..]) == TEARDOWN;
  }

  /** Session `i` removes its (empty) workspace and unlocks. */
  lemma TearDown(states0: seq<State>, acts0: seq<Action>, i: nat, path: Path, ino: nat)
    returns (states: seq<State>, acts: seq<Action>)
    requires IsPath(states0, acts0) && Inv(states0[|acts0|]) && i < |states0[|acts0|].sessions|
    requires states0[|acts0|].sessions[i] == Running(path, ino)
    ensures IsPath(states, acts) && states[0] == states0[0] && Inv(states[|acts|])
    ensures states[|acts|] == Put(states0[|acts0|], i, AboutToUnlink(path))
  {
    states, acts := BeginTeardown(states0, acts0, i, path, ino);
    states, acts := Extend(states, acts, RemoveAll(i, {}, true));
    assert states[|acts|] == Put(states0[|acts0|], i, Session(path, Locked(ino), [], true, [DropLock, RemoveEntry]));
    states, acts := Extend(states, acts, Unlock(i));
    assert [DropLock, RemoveEntry][1..] == [RemoveEntry];
  }

  lemma Open(states0: seq<State>, acts0: seq<Action>, path: Path) returns (states: seq<State>, acts: seq<Action>)
    requires IsPath(states0, acts0) && Inv(states0[|acts0|])
    ensures IsPath(states, acts) && states[0] == states0[0] && Inv(states[|acts|])
    ensures states[|acts|] == Apply(states0[|acts0|], OpenLock(path))
  {
    states, acts := Extend(states0, acts0, OpenLock(path));
  }

  lemma OneWaits(path: Path) returns (states: seq<State>, acts: seq<Action>)
    ensures IsRun(states, acts) && Inv(states[|acts|])
    ensures states[|acts|] == State([Running(path, 0), Waiting(path, 0)], map[path := 0], [path], {})
  {
    states, acts := Open([INIT], [], path);
    assert states[|acts|] == State([Waiting(path, 0)], map[path := 0], [path], {});
    states, acts := StartUp(states, acts, 0, path, 0);
    assert states[|acts|] == State([Running(path, 0)], map[path := 0], [path], {});
    states, acts := Open(states, acts, path);
    assert states[|acts|].sessions == [Running(path, 0), Waiting(path, 0)];
  }

  lemma FirstUnlocks(path: Path) returns (states: seq<State>, acts: seq<Action>)
    ensures IsRun(states, acts) && Inv(states[|acts|])
    ensures states[|acts|] == State([AboutToUnlink(path), Waiting(path, 0)], map[path := 0], [path], {})
  {
    states, acts := OneWaits(path);
    states, acts := TearDown(states, acts, 0, path, 0);
    assert states[|acts|].sessions == [AboutToUnlink(path), Waiting(path, 0)];
  }

  /** A locks and B waits for the same file; A cleans up as far as Unlock, and B takes the lock and writes a file. */
  lemma WaiterTakesOver(path: Path) returns (states: seq<State>, acts: seq<Action>)
    ensures IsRun(states, acts) && Inv(states[|acts|])
    ensures states[|acts|] == State([AboutToUnlink(path), Running(path, 0)], map[path := 0], [path], {File(path, 1, 0)})
  {
    states, acts := FirstUnlocks(path);
    states, acts := StartUp(states, acts, 1, path, 0);
    assert states[|acts|].sessions == [AboutToUnlink(path), Running(path, 0)];
    states, acts := Extend(states, acts, WriteFile(1, 0));
    assert states[|acts|].files == {File(path, 1, 0)};
  }

  /** A unlinks the file under B, and C opens a new one. */
  lemma NewcomerOpens(path: Path) returns (states: seq<State>, acts: seq<Action>)
    ensures IsRun(states, acts) && Inv(states[|acts|])
    ensures states[|acts|] ==
      State([Session(path, Released, [], true, []), Running(path, 0), Waiting(path, 1)], map[path := 1], [path, path], {File(path, 1, 0)})
  {
    states, acts := WaiterTakesOver(path);
    states, acts := Extend(states, acts, Unlink(0));
    var gone := Session(path, Released, [], true, []);
    assert [RemoveEntry][1..] == [];
    assert states[|acts|].sessions == [gone, Running(path, 0)] && states[|acts|].entries == map[];
    states, acts := Open(states, acts, path);
    assert states[|acts|].sessions == [gone, Running(path, 0), Waiting(path, 1)];
  }

  /** B waits on A's lock file; A unlocks, B locks, A unlinks the file under B, and C locks a new one. B and C then
      both hold the path, and C's cleanup deletes a file that B wrote under its lock. */
  lemma ExclusionFails(path: Path) returns (states: seq<State>, acts: seq<Action>)
    ensures IsRun(states, acts)
    ensures HoldsPath(states[|acts|], 1, path) && HoldsPath(states[|acts|], 2, path)
    ensures |acts| > 0 && acts[|acts| - 1] == RemoveAll(2, {File(path, 1, 0)}, true)
  {
    states, acts := NewcomerOpens(path);
    states, acts := StartUp(states, acts, 2, path, 1);
    states, acts := BeginTeardown(states, acts, 2, path, 1);
    states, acts := Extend(states, acts, RemoveAll(2, {File(path, 1, 0)}, true));
  }
}
