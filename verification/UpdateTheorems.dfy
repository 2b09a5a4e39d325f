/** What the self-update protocol guarantees over every run: every interleaving of
    helper, program, lost replies, failed file operations and deaths. */
module UpdateTheorems {
  import opened UpdateProtocol

  function After(systemd: bool, writes: nat, actions: seq<Action>): State {
    Run(Init(systemd, writes), actions)
  }

  lemma AfterInv(systemd: bool, writes: nat, actions: seq<Action>)
    ensures Inv(After(systemd, writes, actions))
  {
    InitInv(systemd, writes);
    hide Inv, Init, Run;
    RunInv(Init(systemd, writes), actions);
  }

  lemma {:induction false} RunConcat(s: State, a: seq<Action>, b: seq<Action>)
    ensures Run(s, a + b) == Run(Run(s, a), b)
    decreases |a|
  {
    hide Step;
    if |a| == 0 {
      assert a + b == b;
    } else {
      assert (a + b)[0] == a[0] && (a + b)[1..] == a[1..] + b;
      RunConcat(Step(s, a[0]), a[1..], b);
    }
  }

  lemma RunOne(s: State, a: Action, rest: seq<Action>)
    ensures Run(s, [a] + rest) == Run(Step(s, a), rest)
  {
    hide Step;
    assert ([a] + rest)[1..] == rest;
  }

  // ---------------------------------------------------------------- data safety

  /** As long as no start opens a program behind a snapshot that still counts, no
      accepted write is ever lost; a restore that failed half way leaves the exact
      snapshot.  ExposureLosesWrites says that the condition is exact. */
  lemma NoAcceptedWriteLost(systemd: bool, writes: nat, actions: seq<Action>)
    ensures var s := After(systemd, writes, actions);
            !s.exposed ==> if s.torn then s.backup == Some(s.accepted) else s.writes == s.accepted
  {
    AfterInv(systemd, writes, actions);
    hide Run;
  }

  /** When the helper restores the backup, it alone holds the data, the candidate
      was never accepted, and the restore is a no-op on the accepted writes. */
  lemma RollbackIsSafe(systemd: bool, writes: nat, actions: seq<Action>)
    ensures var s := After(systemd, writes, actions);
            s.pc == RestoreData ==>
              && !s.committed && s.lock == HeldByHelper && s.program == Off
              && (!s.exposed ==>
                    && s.backup == Some(s.writes) && s.writes == s.accepted
                    && Step(s, HelperStep(true, true, true)).writes == s.accepted)
  {
    AfterInv(systemd, writes, actions);
    hide Run;
  }

  /** What one step may do to the history: accepted writes only grow and flags
      stay raised; the last part says the data follows what is accepted. */
  predicate Grows(s: State, t: State) {
    && (s.committed ==> t.committed) && (s.blind ==> t.blind) && (s.exposed ==> t.exposed)
    && s.accepted <= t.accepted
    && (s.pc != RestoreData ==> t.writes - s.writes == t.accepted - s.accepted)
  }

  lemma HelperDrainGrows(s: State, ok: bool, planOk: bool, pendingOk: bool)
    ensures Grows(s, HelperDrain(s, ok, planOk, pendingOk))
        && HelperDrain(s, ok, planOk, pendingOk).exposed == s.exposed
    ensures HelperDrain(s, ok, planOk, pendingOk).committed == s.committed
  {
    hide Go, Send, Save, Unlock, Crash, Reply;
    match s.pc
    case Validate =>
    case AwaitPost =>
    case ReadPlan =>
    case StopUnit =>
    case SendResume =>
    case MarkStopFailed =>
    case LockOld =>
    case MarkFailed =>
    case _ =>
  }

  lemma HelperSwapGrows(s: State, ok: bool, pendingOk: bool)
    ensures Grows(s, HelperSwap(s, ok, pendingOk)) && HelperSwap(s, ok, pendingOk).exposed == s.exposed
    ensures HelperSwap(s, ok, pendingOk).committed == s.committed
  {
    hide Go, Send, Save, Unlock, Crash, Reply;
    match s.pc
    case CopyOld =>
    case StatOld =>
    case ReplaceTarget =>
    case MarkVerifying =>
    case UndoReplace =>
    case _ =>
  }

  lemma HelperVerifyGrows(s: State, ok: bool, planOk: bool, pendingOk: bool)
    ensures Grows(s, HelperVerify(s, ok, planOk, pendingOk))
        && HelperVerify(s, ok, planOk, pendingOk).exposed == s.exposed
    ensures HelperVerify(s, ok, planOk, pendingOk).committed == s.committed
  {
    hide Go, Send, Save, Unlock, Crash, Reply;
    match s.pc
    case Launch =>
    case Probe =>
    case AwaitPatch =>
    case MarkAccepting =>
    case SendPut =>
    case AwaitPut =>
    case MarkComplete =>
    case MarkUnknown =>
    case _ =>
  }

  lemma HelperRestoreGrows(s: State, ok: bool, planOk: bool, pendingOk: bool)
    requires s.pc.RestoreData? || s.pc.ReplaceBack? || s.pc.MarkRolledBack? || s.pc.Restart? || s.pc.MarkRecovery?
    ensures Grows(s, HelperRollback(s, ok, planOk, pendingOk))
    ensures HelperRollback(s, ok, planOk, pendingOk).exposed == s.exposed
    ensures HelperRollback(s, ok, planOk, pendingOk).committed == s.committed
  {
    hide Go, Save, Unlock;
    match s.pc
    case RestoreData =>
    case ReplaceBack =>
    case MarkRolledBack =>
    case Restart =>
    case _ =>
  }

  lemma HelperRollbackGrows(s: State, ok: bool, planOk: bool, pendingOk: bool)
    ensures Grows(s, HelperRollback(s, ok, planOk, pendingOk))
    ensures HelperRollback(s, ok, planOk, pendingOk).exposed == s.exposed
    ensures HelperRollback(s, ok, planOk, pendingOk).committed == s.committed
  {
    if s.pc.RestoreData? || s.pc.ReplaceBack? || s.pc.MarkRolledBack? || s.pc.Restart? || s.pc.MarkRecovery? {
      HelperRestoreGrows(s, ok, planOk, pendingOk);
      hide Grows, HelperRollback;
    } else {
      hide Go, Send, Crash;
      match s.pc
      case StopCandidate =>
      case StopCandidateUnit =>
      case LockNew =>
      case _ =>
    }
  }

  lemma PrepareGrows(s: State, ok: bool)
    ensures Grows(s, Prepare(s, ok)) && Prepare(s, ok).exposed == s.exposed
  {
  }

  lemma HelperGrows(s: State, ok: bool, planOk: bool, pendingOk: bool)
    ensures Grows(s, Helper(s, ok, planOk, pendingOk)) && Helper(s, ok, planOk, pendingOk).exposed == s.exposed
    ensures Helper(s, ok, planOk, pendingOk).committed == s.committed
  {
    HelperDrainGrows(s, ok, planOk, pendingOk);
    HelperSwapGrows(s, ok, pendingOk);
    HelperVerifyGrows(s, ok, planOk, pendingOk);
    HelperRollbackGrows(s, ok, planOk, pendingOk);
    hide Grows, HelperDrain, HelperSwap, HelperVerify, HelperRollback;
  }

  lemma PostGrows(s: State)
    ensures Grows(s, ServePost(s)) && ServePost(s).exposed == s.exposed
  {
    hide Reply;
    if s.program.On? && s.inbox.post {
      var s1 := s.(inbox := s.inbox.(post := false));
      assert SameData(s, s1);
      if !s.program.draining {
        assert ServePost(s) == s1.(program := s.program.(draining := true, prep := Draining));
      }
    }
  }

  lemma OptionsGrows(s: State)
    ensures Grows(s, ServeOptions(s)) && ServeOptions(s).exposed == s.exposed
  {
    hide Reply;
    var s1 := s.(inbox := s.inbox.(options := false));
    assert SameData(s, s1);
  }

  lemma NewControlGrows(s: State, ready: bool, written: bool)
    ensures Grows(s, ServePatch(s, ready)) && Grows(s, ServePut(s, written)) && Grows(s, ServeDelete(s))
    ensures ServePatch(s, ready).exposed == ServePut(s, written).exposed == ServeDelete(s).exposed == s.exposed
  {
    hide Reply;
  }

  lemma ProgramGrows(s: State, a: Action)
    requires a.StartProgram? || a.CrashProgram? || a.AdmitRequest? || a.FinishRequest? || a.WriteData? || a.KillHelper?
    ensures Grows(s, Step(s, a)) && (!a.StartProgram? ==> Step(s, a).exposed == s.exposed)
  {
    hide Helper, Prepare, ServePost, ServeOptions, ServePatch, ServePut, ServeDelete;
    match a
    case StartProgram(_) =>
    case CrashProgram =>
    case AdmitRequest =>
    case FinishRequest =>
    case WriteData =>
    case _ =>
  }

  lemma StepGrows(s: State, a: Action)
    ensures Grows(s, Step(s, a)) && (!a.StartProgram? ==> Step(s, a).exposed == s.exposed)
  {
    hide Grows, Helper, Prepare, ServePost, ServeOptions, ServePatch, ServePut, ServeDelete;
    hide Start, Crash, Admit, Finish, Write, HelperDies;
    match a
    case HelperStep(ok, planOk, pendingOk) => HelperGrows(s, ok, planOk, pendingOk);
    case PrepareStep(ok) => PrepareGrows(s, ok);
    case PostArrives => PostGrows(s);
    case OptionsArrives => OptionsGrows(s);
    case PatchArrives(ready) => NewControlGrows(s, ready, false);
    case PutArrives(written) => NewControlGrows(s, false, written);
    case DeleteArrives => NewControlGrows(s, false, false);
    case _ => ProgramGrows(s, a);
  }

  lemma {:induction false} HistoryGrows(s: State, actions: seq<Action>)
    ensures var t := Run(s, actions);
            && (s.committed ==> t.committed) && (s.blind ==> t.blind) && (s.exposed ==> t.exposed)
            && s.accepted <= t.accepted
    decreases |actions|
  {
    if |actions| > 0 {
      StepGrows(s, actions[0]);
      hide Step;
      HistoryGrows(Step(s, actions[0]), actions[1..]);
    }
  }

  /** The snapshot is confirmed, or the binary is being exchanged under the lock. */
  predicate SnapshotTaken(s: State) {
    SnapshotPending(s) || s.pc.CopyOld? || s.pc.StatOld? || s.pc.ReplaceTarget?
  }

  /** Whenever a rollback is reached without an exposed start, the gate was closed
      all the time since the snapshot: at no earlier point of the run at which the
      snapshot was confirmed or the new binary in place could a request have
      entered, or anything have been written. */
  lemma GateNeverOpenedBeforeRollback(systemd: bool, writes: nat, before: seq<Action>, after: seq<Action>)
    ensures var s := After(systemd, writes, before);
            var end := After(systemd, writes, before + after);
            end.pc == RestoreData && !end.exposed && (SnapshotTaken(s) || s.target == New) ==>
              Step(s, AdmitRequest) == s && Step(s, WriteData) == s
  {
    AfterInv(systemd, writes, before);
    AfterInv(systemd, writes, before + after);
    RunConcat(Init(systemd, writes), before, after);
    HistoryGrows(After(systemd, writes, before), after);
    hide Run, PostInv;
  }

  // ---------------------------------------------------------------- the gate

  /** Unconditionally: while the changed binary has not been accepted the
      transaction on disk is in an active phase, so a start that can read it
      comes up with its gate closed and its scheduler stopped. */
  lemma ChangedBinaryStaysClosed(systemd: bool, writes: nat, actions: seq<Action>)
    ensures var s := After(systemd, writes, actions);
            s.target == New && !s.committed ==>
              && Gated(true, s.pending, s.target)
              && (s.program == Off && s.lock == Free ==>
                    Step(s, StartProgram(true)).program == On(true, true, 0, false, false, Idle))
  {
    AfterInv(systemd, writes, actions);
    hide Run;
  }

  /** Until the accept handler has written "complete", a candidate whose start
      could read the transaction lets nothing in and writes nothing. */
  lemma CandidateAdmitsNothing(systemd: bool, writes: nat, actions: seq<Action>)
    ensures var s := After(systemd, writes, actions);
            s.target == New && !s.committed && !s.blind ==>
              Step(s, AdmitRequest) == s && Step(s, WriteData) == s
  {
    AfterInv(systemd, writes, actions);
    hide Run;
  }

  // ---------------------------------------------------------------- acceptance

  lemma CommittedPlace(s: State)
    requires Inv(s) && s.committed
    ensures s.target == New && At(s.pc).putSent && s.pc != RestoreData
  {
  }

  lemma {:induction false} CommittedRun(s: State, actions: seq<Action>)
    requires Inv(s) && s.committed
    ensures var t := Run(s, actions);
            && Inv(t) && t.committed
            && t.writes - s.writes == t.accepted - s.accepted && s.accepted <= t.accepted
    decreases |actions|
  {
    hide Inv, Step;
    if |actions| > 0 {
      assert s.pc != RestoreData by { CommittedPlace(s); }
      StepGrows(s, actions[0]);
      StepInv(s, actions[0]);
      CommittedRun(Step(s, actions[0]), actions[1..]);
    }
  }

  /** Never rollback after accept: from then on the new binary stays, the helper
      reaches none of the rollback steps, and the data only gains what is
      written. */
  lemma NoRollbackAfterAccept(systemd: bool, writes: nat, before: seq<Action>, after: seq<Action>)
    ensures var s := After(systemd, writes, before);
            var t := After(systemd, writes, before + after);
            s.committed ==>
              && t.committed && t.target == New
              && !t.pc.StopCandidate? && !t.pc.RestoreData? && !t.pc.ReplaceBack? && !t.pc.MarkRecovery?
              && t.writes - s.writes == t.accepted - s.accepted
  {
    AfterInv(systemd, writes, before);
    RunConcat(Init(systemd, writes), before, after);
    hide Run;
    if After(systemd, writes, before).committed {
      CommittedRun(After(systemd, writes, before), after);
    }
  }

  // ------------------------------------------------- where the guarantees stop

  /** Nobody starts a program. */
  predicate NoStart(actions: seq<Action>) {
    forall i :: 0 <= i < |actions| ==> !actions[i].StartProgram?
  }

  lemma Extend(s: State, path: seq<Action>, t: State, a: Action) returns (path': seq<Action>, t': State)
    requires Run(s, path) == t
    ensures Run(s, path') == t' && t' == Step(t, a)
    ensures NoStart(path) && !a.StartProgram? ==> NoStart(path')
  {
    path', t' := path + [a], Step(t, a);
    RunConcat(s, path, [a]);
    RunOne(t, a, []);
    assert [a] + [] == [a];
    hide Step;
  }

  const OK := HelperStep(true, true, true)
  const FAIL := HelperStep(false, true, true)

  /** What a successful instruction of the helper does on the way to the new
      binary and, after a failed launch, on the way back. */
  function Forward(s: State): State {
    match s.pc
    case LockOld => s.(lock := HeldByHelper, pc := CopyOld)
    case CopyOld => s.(pc := StatOld)
    case StatOld => s.(pc := ReplaceTarget)
    case ReplaceTarget => s.(target := New, pc := MarkVerifying)
    case MarkVerifying => s.(pending := Verifying, lock := Free, pc := Launch)
    case LockNew => s.(lock := HeldByHelper, pc := RestoreData)
    case RestoreData => if s.backup.Some? then s.(writes := s.backup.value, torn := false, pc := ReplaceBack) else s
    case ReplaceBack => s.(target := Old, pc := MarkRolledBack)
    case MarkRolledBack => s.(plan := RolledBack, pending := RolledBack, lock := Free, pc := Restart)
    case Restart => s.(pc := Finished)
    case Launch => s.(pc := Probe)
    case MarkAccepting => s.(plan := Accepting, pending := Accepting, pc := SendPut)
    case MarkComplete => s.(plan := Complete, pending := Complete, pc := Finished)
    case _ => s
  }

  predicate MayAdvance(s: State) {
    && (s.pc == LockOld || s.pc == LockNew ==> Offline(s))
    && (s.pc == MarkVerifying || s.pc == MarkRolledBack ==> s.lock == HeldByHelper)
    && (s.pc == RestoreData ==> s.backup.Some?)
    && Forward(s) != s
  }

  lemma OkSwaps(s: State)
    requires MayAdvance(s)
    requires s.pc == LockOld || s.pc == CopyOld || s.pc == StatOld || s.pc == ReplaceTarget || s.pc == MarkVerifying
    ensures Step(s, OK) == Forward(s)
  {
    match s.pc
    case LockOld =>
    case CopyOld =>
    case StatOld =>
    case ReplaceTarget =>
    case _ =>
  }

  lemma OkRollsBack(s: State)
    requires MayAdvance(s)
    requires s.pc == LockNew || s.pc == RestoreData || s.pc == ReplaceBack || s.pc == MarkRolledBack || s.pc == Restart
    ensures Step(s, OK) == Forward(s)
  {
    match s.pc
    case LockNew =>
    case RestoreData =>
    case ReplaceBack =>
    case MarkRolledBack =>
    case _ =>
  }

  lemma OkIsForward(s: State)
    requires MayAdvance(s)
    ensures Step(s, OK) == Forward(s)
  {
    if s.pc == LockOld || s.pc == CopyOld || s.pc == StatOld || s.pc == ReplaceTarget || s.pc == MarkVerifying {
      OkSwaps(s);
    } else if s.pc == LockNew || s.pc == RestoreData || s.pc == ReplaceBack || s.pc == MarkRolledBack
        || s.pc == Restart {
      OkRollsBack(s);
    } else {
      assert s.pc == Launch || s.pc == MarkAccepting || s.pc == MarkComplete;
    }
  }

  lemma Advances(s0: State, path: seq<Action>, s: State) returns (p: seq<Action>, t: State)
    requires Run(s0, path) == s && MayAdvance(s)
    ensures Run(s0, p) == t && t == Forward(s)
    ensures NoStart(path) ==> NoStart(p)
  {
    OkIsForward(s);
    hide Run, Step, Forward;
    p, t := Extend(s0, path, s, OK);
  }

  /** A helper that finds the data lock free can go on to replace the binary. */
  lemma ReplacesBinary(s0: State, path: seq<Action>, s: State) returns (p: seq<Action>, t: State)
    requires Run(s0, path) == s && s.pc == LockOld && Offline(s)
    ensures Run(s0, p) == t && t == s.(target := New, pending := Verifying, pc := Launch)
    ensures NoStart(path) ==> NoStart(p)
  {
    hide Run, Step, NoStart;
    p, t := Advances(s0, path, s);
    assert t == s.(lock := HeldByHelper, pc := CopyOld);
    p, t := Advances(s0, p, t);
    assert t == s.(lock := HeldByHelper, pc := StatOld);
    ghost var copied := t;
    p, t := SwapsBinary(s0, p, t);
    assert t == copied.(target := New, pending := Verifying, lock := Free, pc := Launch);
  }

  lemma SwapsBinary(s0: State, path: seq<Action>, s: State) returns (p: seq<Action>, t: State)
    requires Run(s0, path) == s && s.pc == StatOld && s.lock == HeldByHelper
    ensures Run(s0, p) == t && t == s.(target := New, pending := Verifying, lock := Free, pc := Launch)
    ensures NoStart(path) ==> NoStart(p)
  {
    hide Run, Step, NoStart;
    p, t := Advances(s0, path, s);
    assert t == s.(pc := ReplaceTarget);
    p, t := Advances(s0, p, t);
    assert t == s.(pc := MarkVerifying, target := New);
    p, t := Advances(s0, p, t);
  }

  lemma ConfirmedStep(s: State)
    requires SnapshotPending(s) && s.pc != LockOld && Offline(s) && s.plan == BackupReady && s.backup.Some?
    ensures Step(s, OK) == s.(pc := if s.pc == AwaitPost then ReadPlan
                                    else if s.pc == ReadPlan && s.systemd then StopUnit else LockOld)
  {
    match s.pc
    case AwaitPost =>
    case ReadPlan =>
    case _ =>
  }

  /** A helper that relies on the snapshot can go on to wait for the data lock. */
  lemma WaitsForLock(s0: State, path: seq<Action>, s: State) returns (p: seq<Action>, t: State)
    requires Run(s0, path) == s && SnapshotPending(s) && Offline(s) && s.plan == BackupReady && s.backup.Some?
    ensures Run(s0, p) == t && t == s.(pc := LockOld)
    ensures NoStart(path) ==> NoStart(p)
  {
    hide Run, Step, NoStart;
    p, t := path, s;
    if t.pc == AwaitPost {
      ConfirmedStep(t);
      p, t := Extend(s0, p, t, OK);
    }
    if t.pc == ReadPlan {
      ConfirmedStep(t);
      p, t := Extend(s0, p, t, OK);
    }
    if t.pc == StopUnit {
      ConfirmedStep(t);
      p, t := Extend(s0, p, t, OK);
    }
  }

  /** The instructions from which the helper can still decide to roll back. */
  predicate BeforeRollback(pc: Pc) {
    pc.Launch? || pc.Probe? || pc.AwaitPatch? || pc.StopCandidate? || pc.StopCandidateUnit? || pc.LockNew?
  }

  lemma GivesUpStep(s: State)
    requires s.pc == Launch || s.pc == Probe || s.pc == AwaitPatch
    ensures Step(s, FAIL) == s.(pc := if s.pc == AwaitPatch then Probe else StopCandidate)
  {
    match s.pc
    case Launch =>
    case Probe =>
    case _ =>
  }

  lemma StopsCandidateStep(s: State)
    requires Offline(s) && (s.pc == StopCandidate || s.pc == StopCandidateUnit)
    ensures var t := Step(s, FAIL);
            t == s.(pc := if s.pc == StopCandidate then StopCandidateUnit else LockNew, inbox := t.inbox)
  {
    match s.pc
    case StopCandidate =>
    case _ =>
  }

  /** A helper that can still give the candidate up can go on to the restore. */
  lemma GivesUp(s0: State, path: seq<Action>, s: State) returns (p: seq<Action>, t: State)
    requires Run(s0, path) == s && BeforeRollback(s.pc) && Offline(s)
    ensures Run(s0, p) == t && t == s.(pc := LockNew, inbox := t.inbox)
    ensures NoStart(path) ==> NoStart(p)
  {
    hide Run, Step, NoStart;
    p, t := path, s;
    if t.pc == AwaitPatch {
      GivesUpStep(t);
      p, t := Extend(s0, p, t, FAIL);
    }
    if t.pc == Launch || t.pc == Probe {
      GivesUpStep(t);
      p, t := Extend(s0, p, t, FAIL);
    }
    if t.pc == StopCandidate {
      StopsCandidateStep(t);
      p, t := Extend(s0, p, t, FAIL);
    }
    if t.pc == StopCandidateUnit {
      StopsCandidateStep(t);
      p, t := Extend(s0, p, t, FAIL);
    }
  }

  /** ... and restore the snapshot. */
  lemma RestoresSnapshot(s0: State, path: seq<Action>, s: State) returns (p: seq<Action>, t: State)
    requires Run(s0, path) == s && BeforeRollback(s.pc) && Offline(s) && s.backup.Some?
    ensures Run(s0, p) == t && t.pc == ReplaceBack && t.writes == s.backup.value && t.accepted == s.accepted
    ensures t.committed == s.committed && t.lock == HeldByHelper && !t.torn
    ensures NoStart(path) ==> NoStart(p)
  {
    hide Run, Step, NoStart;
    p, t := GivesUp(s0, path, s);
    ghost var waiting := s.(pc := LockNew, inbox := t.inbox);
    assert t == waiting;
    p, t := Advances(s0, p, t);
    assert t == waiting.(pc := RestoreData, lock := HeldByHelper);
    p, t := Advances(s0, p, t);
  }

  /** Behind an open gate, a write and a crash. */
  lemma WritesOnce(s: State) returns (p: seq<Action>, t: State)
    requires s.program == OPEN
    ensures Run(s, p) == t && NoStart(p)
    ensures t == s.(program := Off, lock := Free, inbox := NO_MAIL, writes := s.writes + 1, accepted := s.accepted + 1)
  {
    assert Run(s, []) == s;
    hide Run;
    p, t := Extend(s, [], s, WriteData);
    p, t := Extend(s, p, t, CrashProgram);
  }

  /** What the invariant leaves of a state in which a start would be exposed. */
  lemma ExposedStart(s: State, readable: bool)
    requires Inv(s) && Offline(s) && !s.exposed && Exposes(s, readable)
    ensures s.backup == Some(s.accepted)
    ensures s.target == Old ==> SnapshotPending(s) && s.plan == BackupReady
    ensures s.target == New ==> s.torn || BeforeRollback(s.pc)
    ensures var t := Step(s, StartProgram(readable));
            t == s.(lock := HeldByProgram, program := OPEN, exposed := true, blind := t.blind)
  {
  }

  /** A start behind the snapshot can be followed by a write that the helper, or
      whoever restores the snapshot, then throws away. */
  lemma ExposureCanLose(s: State, readable: bool)
    requires Inv(s) && Offline(s) && !s.exposed && Exposes(s, readable)
    ensures exists more: seq<Action> :: NoStart(more) && !Intact(Run(Step(s, StartProgram(readable)), more))
  {
    ExposedStart(s, readable);
    var open := Step(s, StartProgram(readable));
    hide Run, Step, NoStart, Inv, Exposes;
    var p, t := WritesOnce(open);
    if !s.torn {
      if s.target == Old {
        p, t := WaitsForLock(open, p, t);
        p, t := ReplacesBinary(open, p, t);
      }
      p, t := RestoresSnapshot(open, p, t);
    }
    assert !Intact(t);
  }

  lemma {:induction false} ExposedOnlyByStarts(s: State, actions: seq<Action>)
    requires Inv(s) && NoStart(actions)
    ensures Inv(Run(s, actions)) && Run(s, actions).exposed == s.exposed
    decreases |actions|
  {
    hide Inv, Step;
    if |actions| > 0 {
      StepInv(s, actions[0]);
      StepGrows(s, actions[0]);
      ExposedOnlyByStarts(Step(s, actions[0]), actions[1..]);
    }
  }

  /** The condition of NoAcceptedWriteLost is exact: in every state reached without
      an exposed start in which a program can be started, that start can cost a
      write - without any further start - if and only if it is exposed. */
  lemma ExposureLosesWrites(systemd: bool, writes: nat, actions: seq<Action>, readable: bool)
    ensures var s := After(systemd, writes, actions);
            Offline(s) && !s.exposed ==>
              (Exposes(s, readable) <==>
                 exists more: seq<Action> ::
                   NoStart(more) && !Intact(Run(Step(s, StartProgram(readable)), more)))
  {
    var s := After(systemd, writes, actions);
    AfterInv(systemd, writes, actions);
    if Offline(s) && !s.exposed {
      if Exposes(s, readable) {
        ExposureCanLose(s, readable);
      } else {
        var open := Step(s, StartProgram(readable));
        assert Inv(open) && !open.exposed by { StepInv(s, StartProgram(readable)); }
        hide Run, Step, NoStart;
        forall more: seq<Action> | NoStart(more) ensures Intact(Run(open, more)) {
          ExposedOnlyByStarts(open, more);
        }
      }
    }
  }

  // ------------------------------------------------------- the protocol's own end

  const OPEN := On(false, false, 0, true, false, Idle)
  const PAUSED := On(false, true, 0, false, true, Paused)

  lemma HelperAsks(s: State)
    requires s.pc == Validate && s.plan == Installing && s.target == Old && s.program == OPEN
    ensures Step(s, OK) == s.(pc := AwaitPost, inbox := s.inbox.(post := true), answers := s.answers.(post := Unheard))
  {
  }

  lemma OldProgramCloses(s: State)
    requires s.program == OPEN && s.inbox.post
    ensures Step(s, PostArrives)
         == s.(inbox := s.inbox.(post := false), program := On(false, true, 0, true, false, Draining))
  {
  }

  lemma OldProgramPauses(s: State)
    requires s.program == On(false, true, 0, true, false, Draining)
    ensures Step(Step(s, PrepareStep(true)), PrepareStep(true)) == s.(program := PAUSED)
  {
    var t := s.(program := On(false, true, 0, true, false, Drained));
    assert Step(s, PrepareStep(true)) == t;
  }

  lemma OldProgramSavesStep(s: State)
    requires s.program == PAUSED && s.pending == Installing && s.target == Old
    ensures Step(Step(Step(s, PrepareStep(true)), PrepareStep(true)), PrepareStep(true))
         == s.(program := On(false, true, 0, false, true, Idle), backup := Some(s.writes), plan := BackupReady,
               pending := BackupReady, answers := s.answers.(post := Granted))
  {
    var t := s.(program := On(false, true, 0, false, true, Saved), backup := Some(s.writes));
    var u := s.(program := On(false, true, 0, false, true, PlanSaved), backup := Some(s.writes), plan := BackupReady);
    assert Step(s, PrepareStep(true)) == t;
    assert Step(t, PrepareStep(true)) == u;
  }

  lemma HelperHears(s: State)
    requires s.pc == AwaitPost && s.answers.post == Granted && s.plan == BackupReady && s.backup.Some?
    requires s.program.On?
    ensures Step(s, CrashProgram) == s.(program := Off, lock := Free, inbox := NO_MAIL)
    ensures SnapshotPending(Step(s, CrashProgram)) && Offline(Step(s, CrashProgram))
  {
  }

  /** The old program drains, backs up and answers; the helper is left waiting for
      the data lock. */
  lemma PreparationCanSucceed(systemd: bool, writes: nat) returns (p: seq<Action>, t: State)
    ensures After(systemd, writes, p) == t && t.pc == LockOld && Offline(t) && !t.exposed && !t.blind && !t.committed
    ensures t.inbox == NO_MAIL && t.backup == Some(writes) && t.accepted == writes && t.writes == writes
  {
    var s := Init(systemd, writes);
    assert Run(s, []) == s;
    HelperAsks(s);
    hide Run, Step;
    p, t := Extend(s, [], s, OK);
    OldProgramCloses(t);
    p, t := Extend(s, p, t, PostArrives);
    OldProgramPauses(t);
    p, t := Extend(s, p, t, PrepareStep(true));
    p, t := Extend(s, p, t, PrepareStep(true));
    OldProgramSavesStep(t);
    p, t := Extend(s, p, t, PrepareStep(true));
    p, t := Extend(s, p, t, PrepareStep(true));
    p, t := Extend(s, p, t, PrepareStep(true));
    HelperHears(t);
    p, t := Extend(s, p, t, CrashProgram);
    ghost var stopped := t;
    p, t := WaitsForLock(s, p, t);
    assert t == stopped.(pc := LockOld);
  }

  const CANDIDATE := On(true, true, 0, false, false, Idle)

  lemma CandidateStarts(s: State)
    requires s.pc == Launch && Offline(s) && s.target == New && s.pending == Verifying
    ensures Step(s, StartProgram(true)) == s.(lock := HeldByProgram, program := CANDIDATE)
  {
  }

  lemma CandidateIsReady(s: State)
    requires s.pc == Probe && s.program == CANDIDATE
    ensures var t := Step(Step(Step(s, OK), PatchArrives(true)), OK);
            t.pc == MarkAccepting && t.program == CANDIDATE && t.target == s.target
            && t.writes == s.writes && t.accepted == s.accepted
  {
    var t := Step(s, OK);
    assert t == Go(Send(s, Patch), AwaitPatch);
    assert t.inbox.patch && t.program == CANDIDATE && t.pc == AwaitPatch;
    assert Step(t, PatchArrives(true)) == Reply(t.(inbox := t.inbox.(patch := false)), Patch, true);
  }

  lemma CandidateOpened(s: State)
    requires s.pc == AwaitPut && s.program == CANDIDATE && s.inbox.put
    ensures Step(s, PutArrives(true)) == Reply(s.(inbox := s.inbox.(put := false), pending := Complete,
                                                  committed := true, program := OPEN), Put, true)
    ensures Step(s, PutArrives(true)).answers.put == Granted
  {
  }

  lemma AcceptanceHeard(s: State)
    requires s.pc == AwaitPut && s.answers.put == Granted
    ensures Step(s, OK) == Go(s, MarkComplete)
  {
  }

  lemma CandidateAccepts(s: State)
    requires s.pc == SendPut && s.program == CANDIDATE
    ensures var t := Step(Step(Step(s, OK), PutArrives(true)), OK);
            t.pc == MarkComplete && t.committed && t.target == s.target && t.program == OPEN
            && t.writes == s.writes && t.accepted == s.accepted
  {
    var t := Step(s, OK);
    assert t == Go(Send(s, Put), AwaitPut);
    assert t.inbox.put && t.program == CANDIDATE && t.pc == AwaitPut;
    hide Step, Reply;
    CandidateOpened(t);
    AcceptanceHeard(Step(t, PutArrives(true)));
  }

  /** The candidate starts closed, proves ready, writes "complete" and opens. */
  lemma AcceptanceCanSucceed(s0: State, path: seq<Action>, s: State) returns (p: seq<Action>, t: State)
    requires Run(s0, path) == s && s.pc == Launch && Offline(s) && s.target == New && s.pending == Verifying
    ensures Run(s0, p) == t && t.pc == Finished && t.committed && t.target == New && t.plan == Complete
    ensures t.program == OPEN && t.writes == s.writes && t.accepted == s.accepted
  {
    hide Run, Step;
    CandidateStarts(s);
    p, t := Extend(s0, path, s, StartProgram(true));
    p, t := Advances(s0, p, t);
    assert t.pc == Probe && t.program == CANDIDATE && t.target == New;
    CandidateIsReady(t);
    p, t := Extend(s0, p, t, OK);
    p, t := Extend(s0, p, t, PatchArrives(true));
    p, t := Extend(s0, p, t, OK);
    p, t := CandidateOpens(s0, p, t);
  }

  lemma Completes(s: State)
    requires s.pc == MarkComplete
    ensures Step(s, OK) == s.(plan := Complete, pending := Complete, pc := Finished)
  {
    OkIsForward(s);
    hide Step;
  }

  lemma CandidateOpens(s0: State, path: seq<Action>, s: State) returns (p: seq<Action>, t: State)
    requires Run(s0, path) == s && s.pc == MarkAccepting && s.program == CANDIDATE && s.target == New
    ensures Run(s0, p) == t && t.pc == Finished && t.committed && t.target == New && t.plan == Complete
    ensures t.program == OPEN && t.writes == s.writes && t.accepted == s.accepted
  {
    hide Run, Step;
    p, t := Advances(s0, path, s);
    assert t.pc == SendPut && t.program == CANDIDATE && t.target == New;
    assert t.writes == s.writes && t.accepted == s.accepted;
    hide Forward, MayAdvance;
    CandidateAccepts(t);
    p, t := Extend(s0, p, t, OK);
    p, t := Extend(s0, p, t, PutArrives(true));
    p, t := Extend(s0, p, t, OK);
    Completes(t);
    p, t := Extend(s0, p, t, OK);
  }

  /** The theorems above are not about an empty set of runs: an update can reach
      acceptance, and one whose candidate does not launch can reach the restored
      old state, with every write kept. */
  lemma BothEndingsAreReachable(systemd: bool, writes: nat)
    ensures exists done: seq<Action> :: var t := After(systemd, writes, done);
              t.pc == Finished && t.committed && t.target == New && t.program.On? && !t.program.draining
              && t.writes == writes
    ensures exists done: seq<Action> :: var t := After(systemd, writes, done);
              t.pc == Finished && !t.committed && t.target == Old && t.plan == RolledBack && t.writes == writes
  {
    var s := Init(systemd, writes);
    var p, t := PreparationCanSucceed(systemd, writes);
    hide Run, Step, Init;
    var q, u := ReplacesBinary(s, p, t);
    var q1, u1 := AcceptanceCanSucceed(s, q, u);
    assert After(systemd, writes, q1) == u1;
    var q2, u2 := RestoresSnapshot(s, q, u);
    q2, u2 := RollbackCanFinish(s, q2, u2);
    assert After(systemd, writes, q2) == u2;
  }

  lemma RollbackCanFinish(s0: State, path: seq<Action>, s: State) returns (p: seq<Action>, t: State)
    requires Run(s0, path) == s && s.pc == ReplaceBack && s.lock == HeldByHelper
    ensures Run(s0, p) == t && t.pc == Finished && t.target == Old && t.plan == RolledBack
    ensures t.writes == s.writes && t.committed == s.committed
  {
    hide Run, Step;
    p, t := Advances(s0, path, s);
    assert t == s.(target := Old, pc := MarkRolledBack);
    p, t := Advances(s0, p, t);
    assert t == s.(target := Old, plan := RolledBack, pending := RolledBack, lock := Free, pc := Restart);
    p, t := Advances(s0, p, t);
  }
}
