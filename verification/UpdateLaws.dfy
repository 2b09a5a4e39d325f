/** What a self-update may conclude from what happened: who is accepted, what a
    failure rules out, what a confirmed preparation means and what the record says. */
module UpdateLaws {
  import opened UpdateProtocol
  import opened UpdateTheorems
  import opened UpdateOutcomes

  // ------------------------------------------------ only what proved ready

  /** A gated candidate is asked and proves ready. */
  predicate ServesReady(s: State, a: Action) {
    a == PatchArrives(true) && s.program.On? && s.program.updating && s.inbox.patch
  }

  /** A gated candidate is told to accept and writes "complete". */
  predicate ServesAccept(s: State, a: Action) {
    a == PutArrives(true) && s.program.On? && s.program.updating && s.inbox.put
  }

  /** That happens somewhere in the run. */
  predicate ProvesReady(s: State, actions: seq<Action>)
    decreases |actions|
  {
    |actions| > 0 && (ServesReady(s, actions[0]) || ProvesReady(Step(s, actions[0]), actions[1..]))
  }

  predicate Accepts(s: State, actions: seq<Action>)
    decreases |actions|
  {
    |actions| > 0 && (ServesAccept(s, actions[0]) || Accepts(Step(s, actions[0]), actions[1..]))
  }

  /** The helper is on its way to open the gate, or past it. */
  predicate OnTheWay(pc: Pc) {
    pc.MarkAccepting? || pc.SendPut? || pc.AwaitPut? || pc.MarkComplete? || pc.MarkUnknown?
  }

  /** What each stage of an acceptance has to have been earned by. */
  predicate Earned(s: State, ready: bool, accepted: bool) {
    && (s.answers.patch == Granted || OnTheWay(s.pc) || s.inbox.put || s.committed ==> ready)
    && (s.committed ==> accepted)
  }

  /** No answer is granted by itself, and only a granted readiness is taken for one. */
  predicate EarnsOn(s: State, t: State) {
    && (t.answers.post == Granted ==> s.answers.post == Granted)
    && (t.answers.patch == Granted ==> s.answers.patch == Granted)
    && (OnTheWay(t.pc) ==> OnTheWay(s.pc) || s.answers.patch == Granted)
    && (t.inbox.put ==> s.inbox.put || OnTheWay(s.pc))
  }

  lemma DrainEarns(s: State, ok: bool, planOk: bool, pendingOk: bool)
    requires !OnTheWay(s.pc)
    ensures EarnsOn(s, HelperDrain(s, ok, planOk, pendingOk))
  {
    hide Go, Save, Send, Unlock, Crash;
    match s.pc
    case Validate =>
    case AwaitPost =>
    case ReadPlan =>
    case StopUnit =>
    case SendResume =>
    case MarkStopFailed =>
    case LockOld =>
    case MarkFailed =>
    case _ =>
  }

  lemma SwapEarns(s: State, ok: bool, pendingOk: bool)
    ensures EarnsOn(s, HelperSwap(s, ok, pendingOk))
  {
    hide Go, Save, Send, Unlock, Crash;
    match s.pc
    case CopyOld =>
    case StatOld =>
    case ReplaceTarget =>
    case MarkVerifying =>
    case UndoReplace =>
    case _ =>
  }

  lemma VerifyEarns(s: State, ok: bool, planOk: bool, pendingOk: bool)
    ensures EarnsOn(s, HelperVerify(s, ok, planOk, pendingOk))
  {
    hide Go, Save, Send, Unlock, Crash;
    match s.pc
    case Launch =>
    case Probe =>
    case AwaitPatch =>
    case MarkAccepting =>
    case SendPut =>
    case AwaitPut =>
    case MarkComplete =>
    case MarkUnknown =>
    case _ =>
  }

  lemma RollbackEarns(s: State, ok: bool, planOk: bool, pendingOk: bool)
    ensures EarnsOn(s, HelperRollback(s, ok, planOk, pendingOk))
  {
    hide Go, Save, Send, Unlock, Crash;
    match s.pc
    case StopCandidate =>
    case StopCandidateUnit =>
    case LockNew =>
    case RestoreData =>
    case ReplaceBack =>
    case MarkRolledBack =>
    case Restart =>
    case MarkRecovery =>
    case _ =>
  }

  lemma HelperEarns(s: State, ok: bool, planOk: bool, pendingOk: bool)
    ensures EarnsOn(s, Helper(s, ok, planOk, pendingOk))
  {
    hide EarnsOn, HelperDrain, HelperSwap, HelperVerify, HelperRollback;
    if !OnTheWay(s.pc) { DrainEarns(s, ok, planOk, pendingOk); }
    SwapEarns(s, ok, pendingOk);
    VerifyEarns(s, ok, planOk, pendingOk);
    RollbackEarns(s, ok, planOk, pendingOk);
  }

  lemma OldControlEarns(s: State)
    ensures EarnsOn(s, ServePost(s)) && EarnsOn(s, ServeOptions(s))
  {
    var s1 := s.(inbox := s.inbox.(post := false));
    var s2 := s.(inbox := s.inbox.(options := false));
    if s.program.On? && s.inbox.post {
      if s.program.draining {
        assert ServePost(s) == Reply(s1, Post, false);
      } else {
        assert ServePost(s) == s1.(program := s.program.(draining := true, prep := Draining));
      }
    } else {
      assert ServePost(s) == s;
    }
    hide ServePost;
  }

  lemma DeleteEarns(s: State)
    ensures EarnsOn(s, ServeDelete(s))
  {
  }

  lemma PatchEarns(s: State, ready: bool)
    ensures var t := ServePatch(s, ready);
      && t.pc == s.pc && t.inbox.put == s.inbox.put && t.committed == s.committed
      && t.answers.post == s.answers.post
      && (t.answers.patch == Granted ==> s.answers.patch == Granted || ServesReady(s, PatchArrives(ready)))
  {
  }

  lemma PutEarns(s: State, written: bool)
    ensures var t := ServePut(s, written);
      && t.pc == s.pc && (t.inbox.put ==> s.inbox.put) && t.answers.patch == s.answers.patch
      && t.answers.post == s.answers.post
      && (t.committed ==> s.committed || ServesAccept(s, PutArrives(written)))
  {
  }

  lemma KillEarns(s: State)
    ensures EarnsOn(s, HelperDies(s)) && HelperDies(s).committed == s.committed
  {
    hide Unlock;
  }

  lemma ProgramEarns(s: State, a: Action)
    requires a.StartProgram? || a.CrashProgram? || a.AdmitRequest? || a.FinishRequest? || a.WriteData? || a.KillHelper?
    ensures EarnsOn(s, Step(s, a)) && Step(s, a).committed == s.committed
  {
    hide HelperDies;
    match a
    case StartProgram(_) =>
    case CrashProgram =>
    case AdmitRequest =>
    case FinishRequest =>
    case WriteData =>
    case KillHelper => KillEarns(s);
  }

  lemma PrepareEarns(s: State, ok: bool)
    ensures var t := Prepare(s, ok);
      t.pc == s.pc && t.inbox == s.inbox && t.answers.patch == s.answers.patch && t.committed == s.committed
  {
    if s.program.On? && s.program.prep != Idle && ok && !Refused(s) {
      AdvanceEarns(s);
      hide Advance;
    }
  }

  lemma AdvanceEarns(s: State)
    requires s.program.On?
    ensures var t := Advance(s);
      t.pc == s.pc && t.inbox == s.inbox && t.answers.patch == s.answers.patch && t.committed == s.committed
  {
    match s.program.prep
    case Draining =>
    case Drained =>
    case Paused =>
    case Saved =>
    case _ =>
  }

  lemma StepEarned(s: State, a: Action, ready: bool, accepted: bool)
    requires Earned(s, ready, accepted)
    ensures Earned(Step(s, a), ready || ServesReady(s, a), accepted || ServesAccept(s, a))
  {
    hide Helper, Prepare, ServePost, ServeOptions, ServePatch, ServePut, ServeDelete, HelperDies;
    hide Start, Crash, Admit, Finish, Write;
    match a
    case HelperStep(ok, planOk, pendingOk) =>
      HelperEarns(s, ok, planOk, pendingOk);
      HelperGrows(s, ok, planOk, pendingOk);
    case PrepareStep(ok) => PrepareEarns(s, ok);
    case PatchArrives(ready') => PatchEarns(s, ready');
    case PutArrives(written) => PutEarns(s, written);
    case PostArrives => OldControlEarns(s); CommittedKept(s);
    case OptionsArrives => OldControlEarns(s); CommittedKept(s);
    case DeleteArrives => DeleteEarns(s); CommittedKept(s);
    case _ => ProgramEarns(s, a);
  }

  lemma CommittedKept(s: State)
    ensures ServePost(s).committed == ServeOptions(s).committed == ServeDelete(s).committed == s.committed
  {
    hide Reply;
  }

  lemma {:induction false} RunEarned(s: State, actions: seq<Action>, ready: bool, accepted: bool)
    requires Earned(s, ready, accepted)
    ensures Earned(Run(s, actions), ready || ProvesReady(s, actions), accepted || Accepts(s, actions))
    decreases |actions|
  {
    if |actions| > 0 {
      StepEarned(s, actions[0], ready, accepted);
      hide Step, Earned, ServesReady, ServesAccept;
      RunEarned(Step(s, actions[0]), actions[1..], ready || ServesReady(s, actions[0]),
                accepted || ServesAccept(s, actions[0]));
    }
  }

  lemma {:induction false} ProofIsInTheRun(s: State, actions: seq<Action>)
    ensures ProvesReady(s, actions) ==> PatchArrives(true) in actions
    ensures Accepts(s, actions) ==> PutArrives(true) in actions
    decreases |actions|
  {
    if |actions| > 0 {
      hide Step;
      ProofIsInTheRun(Step(s, actions[0]), actions[1..]);
    }
  }

  /** Only a candidate that proved ready is accepted: in every run, before the helper is
      on its way to open the gate a gated program has answered a readiness probe with
      success; and before the gate is open one has written "complete" besides. A run
      without such answers never commits. */
  lemma OnlyReadyIsAccepted(systemd: bool, writes: nat, actions: seq<Action>)
    ensures var s0, s := Init(systemd, writes), After(systemd, writes, actions);
      && (OnTheWay(s.pc) || s.committed ==> ProvesReady(s0, actions) && PatchArrives(true) in actions)
      && (s.committed ==> Accepts(s0, actions) && PutArrives(true) in actions)
  {
    RunEarned(Init(systemd, writes), actions, false, false);
    ProofIsInTheRun(Init(systemd, writes), actions);
    hide Run;
  }

  // --------------------------------------------------- what a failure rules out

  /** The helper is past any acceptance, and none is under way. */
  predicate NoLongerAccepts(s: State) {
    && !s.committed && !s.inbox.put
    && (s.pc.StopCandidate? || s.pc.StopCandidateUnit? || s.pc.LockNew? || s.pc.RestoreData? || s.pc.ReplaceBack?
        || s.pc.MarkRolledBack? || s.pc.Restart? || s.pc.MarkRecovery? || s.pc.SendResume? || s.pc.MarkStopFailed?
        || s.pc.MarkFailed? || s.pc.UndoReplace? || s.pc.Finished? || s.pc.Dead?)
  }

  lemma HelperNoLonger(s: State, ok: bool, planOk: bool, pendingOk: bool)
    requires NoLongerAccepts(s)
    ensures NoLongerAccepts(Helper(s, ok, planOk, pendingOk))
  {
    HelperEarns(s, ok, planOk, pendingOk);
    HelperGrows(s, ok, planOk, pendingOk);
    HelperPlaces(s, ok, planOk, pendingOk);
    hide Helper, Grows;
  }

  lemma HelperPlaces(s: State, ok: bool, planOk: bool, pendingOk: bool)
    ensures var p := Helper(s, ok, planOk, pendingOk).pc;
      match s.pc
      case StopCandidate => p == StopCandidateUnit
      case StopCandidateUnit => p == LockNew
      case LockNew => p == RestoreData || p == MarkRecovery
      case RestoreData => p == ReplaceBack || p == MarkRecovery
      case ReplaceBack => p == MarkRolledBack || p == MarkRecovery
      case MarkRolledBack => p == Restart
      case Restart => p == Finished || p == MarkRecovery
      case MarkRecovery => p == Finished
      case SendResume => p == MarkStopFailed
      case MarkStopFailed => p == Finished
      case MarkFailed => p == Finished
      case UndoReplace => p == Finished
      case Finished => p == Finished
      case Dead => p == Dead
      case _ => true
  {
    hide Go, Save, Send, Unlock, Crash;
    match s.pc
    case StopCandidate =>
    case StopCandidateUnit =>
    case LockNew =>
    case RestoreData =>
    case ReplaceBack =>
    case MarkRolledBack =>
    case Restart =>
    case MarkRecovery =>
    case _ =>
  }

  lemma StepNoLonger(s: State, a: Action)
    requires NoLongerAccepts(s)
    ensures NoLongerAccepts(Step(s, a))
  {
    hide Helper, Prepare, ServePost, ServeOptions, ServePatch, ServePut, ServeDelete, HelperDies;
    hide Start, Crash, Admit, Finish, Write;
    match a
    case HelperStep(ok, planOk, pendingOk) => HelperNoLonger(s, ok, planOk, pendingOk);
    case PrepareStep(ok) => PrepareEarns(s, ok);
    case PatchArrives(ready) => PatchEarns(s, ready);
    case PutArrives(written) => PutEarns(s, written);
    case PostArrives => OldControlEarns(s); CommittedKept(s); OldServiceOutcome(s);
    case OptionsArrives => OldControlEarns(s); CommittedKept(s); OldServiceOutcome(s);
    case DeleteArrives => DeleteEarns(s); CommittedKept(s); NewServiceOutcome(s, false);
    case KillHelper => ProgramEarns(s, a); KillOutcome(s);
    case _ => ProgramEarns(s, a); ProgramOutcome(s, a);
  }

  lemma {:induction false} RunNoLonger(s: State, actions: seq<Action>)
    requires NoLongerAccepts(s)
    ensures NoLongerAccepts(Run(s, actions))
    decreases |actions|
  {
    hide NoLongerAccepts, Step;
    if |actions| > 0 {
      StepNoLonger(s, actions[0]);
      RunNoLonger(Step(s, actions[0]), actions[1..]);
    }
  }

  /** A candidate that could not be launched, or that failed its probe, is never
      accepted, whatever happens afterwards. */
  lemma FailedCandidateIsNeverAccepted(systemd: bool, writes: nat, actions: seq<Action>, planOk: bool, pendingOk: bool,
                                       more: seq<Action>)
    ensures var s := After(systemd, writes, actions);
      (s.pc.Launch? || s.pc.Probe?) ==>
        var t := Run(Step(s, HelperStep(false, planOk, pendingOk)), more);
        !t.committed && !OnTheWay(t.pc)
  {
    var s := After(systemd, writes, actions);
    AfterInv(systemd, writes, actions);
    hide Run, Init;
    if s.pc.Launch? || s.pc.Probe? {
      assert ClosedInv(s);
      hide Inv;
      GivesUpStep(s);
      assert Step(s, HelperStep(false, planOk, pendingOk)) == Step(s, FAIL);
      hide Step;
      RunNoLonger(Step(s, FAIL), more);
    }
  }

  /** The old binary is in place and the helper goes no further. */
  predicate KeepsOld(s: State) {
    && s.target == Old
    && (s.pc.SendResume? || s.pc.MarkStopFailed? || s.pc.MarkFailed? || s.pc.MarkRecovery? || s.pc.Finished?
        || s.pc.Dead?)
  }

  lemma StepKeepsOld(s: State, a: Action)
    requires KeepsOld(s)
    ensures KeepsOld(Step(s, a))
  {
    hide Helper, Prepare, ServePost, ServeOptions, ServePatch, ServePut, ServeDelete, HelperDies;
    hide Start, Crash, Admit, Finish, Write;
    match a
    case HelperStep(ok, planOk, pendingOk) =>
      HelperPlaces(s, ok, planOk, pendingOk);
      HelperTarget(s, ok, planOk, pendingOk);
    case PrepareStep(ok) => PrepareEarns(s, ok); PrepareTarget(s, ok);
    case PatchArrives(ready) => NewServiceOutcome(s, ready);
    case PutArrives(written) => PutTarget(s, written);
    case PostArrives => OldServiceOutcome(s);
    case OptionsArrives => OldServiceOutcome(s);
    case DeleteArrives => NewServiceOutcome(s, false);
    case KillHelper => KillOutcome(s);
    case _ => ProgramOutcome(s, a);
  }

  lemma HelperTarget(s: State, ok: bool, planOk: bool, pendingOk: bool)
    requires KeepsOld(s)
    ensures Helper(s, ok, planOk, pendingOk).target == Old
  {
    hide Go, Save, Send;
    match s.pc
    case MarkRecovery =>
    case _ =>
  }

  lemma PrepareTarget(s: State, ok: bool)
    ensures Prepare(s, ok).target == s.target
  {
    hide Reply;
  }

  lemma PutTarget(s: State, written: bool)
    ensures ServePut(s, written).target == s.target && ServePut(s, written).pc == s.pc
  {
    hide Reply;
  }

  lemma {:induction false} RunKeepsOld(s: State, actions: seq<Action>)
    requires KeepsOld(s)
    ensures KeepsOld(Run(s, actions))
    decreases |actions|
  {
    hide KeepsOld, Step;
    if |actions| > 0 {
      StepKeepsOld(s, actions[0]);
      RunKeepsOld(Step(s, actions[0]), actions[1..]);
    }
  }

  /** A preparation, a stop, a lock or a copy that fails leaves the old binary in place
      for good. */
  lemma FailureBeforeReplacementKeepsBinary(systemd: bool, writes: nat, actions: seq<Action>, planOk: bool,
                                            pendingOk: bool, more: seq<Action>)
    ensures var s := After(systemd, writes, actions);
      (s.pc.Validate? || s.pc.AwaitPost? || s.pc.ReadPlan? || s.pc.StopUnit? || s.pc.LockOld? || s.pc.CopyOld?
       || s.pc.StatOld? || s.pc.ReplaceTarget?) ==>
        Run(Step(s, HelperStep(false, planOk, pendingOk)), more).target == Old
  {
    var s := After(systemd, writes, actions);
    AfterInv(systemd, writes, actions);
    hide Run, Init;
    if s.pc.Validate? || s.pc.AwaitPost? || s.pc.ReadPlan? || s.pc.StopUnit? || s.pc.LockOld? || s.pc.CopyOld?
       || s.pc.StatOld? || s.pc.ReplaceTarget? {
      assert ClosedInv(s);
      assert s.target == Old;
      hide Inv, ClosedInv;
      FailsEarly(s, planOk, pendingOk);
      hide Step;
      RunKeepsOld(Step(s, HelperStep(false, planOk, pendingOk)), more);
    }
  }

  lemma FailsEarly(s: State, planOk: bool, pendingOk: bool)
    requires s.target == Old
    requires s.pc.Validate? || s.pc.AwaitPost? || s.pc.ReadPlan? || s.pc.StopUnit? || s.pc.LockOld? || s.pc.CopyOld?
             || s.pc.StatOld? || s.pc.ReplaceTarget?
    ensures KeepsOld(Step(s, HelperStep(false, planOk, pendingOk)))
  {
    hide Go, Send, Unlock, Crash;
    match s.pc
    case Validate =>
    case AwaitPost =>
    case ReadPlan =>
    case StopUnit =>
    case LockOld =>
    case CopyOld =>
    case StatOld =>
    case ReplaceTarget =>
  }

  // ------------------------------------------- what a confirmed preparation means

  /** The answer to the drain request says "granted" only when, at that moment, the
      snapshot of the current data is on disk and the transaction says so, and so does
      the plan as long as the helper has not written over it. */
  lemma GrantMeansSaved(systemd: bool, writes: nat, actions: seq<Action>, a: Action)
    ensures var s := After(systemd, writes, actions); var t := Step(s, a);
      s.answers.post != Granted && t.answers.post == Granted ==>
        && t.pending == BackupReady && t.target == Old && (t.pc == AwaitPost ==> t.plan == BackupReady)
        && t.program.On? && t.program.draining && t.program.requests == 0 && !t.program.scheduler
        && (!t.exposed ==> t.backup == Some(t.accepted) && t.writes == t.accepted)
  {
    var s := After(systemd, writes, actions);
    AfterInv(systemd, writes, actions);
    StepInv(s, a);
    hide Run, Init;
    if s.answers.post != Granted && Step(s, a).answers.post == Granted {
      GrantedBy(s, a);
      assert PostInv(s) && GateInv(s) && DataInv(s) && PostInv(Step(s, a)) && DataInv(Step(s, a));
      hide Inv, LockInv, ClosedInv;
    }
  }

  lemma GrantedBy(s: State, a: Action)
    requires s.answers.post != Granted && Step(s, a).answers.post == Granted
    ensures a == PrepareStep(true) && s.program.On? && s.program.prep == PlanSaved
    ensures Step(s, a) == Reply(s.(pending := BackupReady, program := s.program.(prep := Idle)), Post, true)
  {
    hide Helper, ServePost, ServeOptions, ServePatch, ServePut, ServeDelete, HelperDies;
    hide Start, Crash, Admit, Finish, Write;
    match a
    case HelperStep(ok, planOk, pendingOk) => HelperEarns(s, ok, planOk, pendingOk);
    case PrepareStep(ok) => PreparationGrants(s, ok);
    case PatchArrives(ready) => PatchEarns(s, ready);
    case PutArrives(written) => PutEarns(s, written);
    case PostArrives => OldControlEarns(s);
    case OptionsArrives => OldControlEarns(s);
    case DeleteArrives => DeleteEarns(s);
    case _ => ProgramEarns(s, a);
  }

  lemma PreparationGrants(s: State, ok: bool)
    requires s.answers.post != Granted && Prepare(s, ok).answers.post == Granted
    ensures ok && s.program.On? && s.program.prep == PlanSaved
    ensures Prepare(s, ok) == Reply(s.(pending := BackupReady, program := s.program.(prep := Idle)), Post, true)
  {
  }

  /** A preparation that fails at any point is answered "denied" and opens the gate. */
  lemma FailedPreparationIsDenied(s: State)
    requires s.program.On? && s.program.prep != Idle
    ensures var t := Step(s, PrepareStep(false));
      && t.answers.post == Denied && t.program.On? && !t.program.draining && t.program.prep == Idle
      && t.pending == s.pending && t.backup == s.backup
  {
  }

  // ---------------------------------------------------- what the record says

  /** The helper wrote this outcome last and nothing is left to change it. */
  predicate Settled(s: State) { (s.pc.Finished? || s.pc.Dead?) && !s.inbox.put && !s.committed }

  /** What the plan on disk says about its outcome is true. */
  predicate TellsTruth(s: State) {
    && (s.plan == Complete ==> s.committed)
    && (s.plan == Failed ==> s.target == Old && Settled(s))
    && (s.plan == RolledBack ==>
          s.target == Old && (Settled(s) || ((s.pc.Restart? || s.pc.MarkRecovery?) && !s.inbox.put && !s.committed)))
    && (s.plan == RecoveryRequired ==> Settled(s))
    && (s.plan == AcceptanceUnknown ==> s.target == New && (s.pc.Finished? || s.pc.Dead?))
  }

  lemma DrainTruth(s: State, ok: bool, planOk: bool, pendingOk: bool)
    requires TellsTruth(s) && s.target == Old && !s.inbox.put && !s.committed
    requires s.pc.Validate? || s.pc.AwaitPost? || s.pc.ReadPlan? || s.pc.StopUnit? || s.pc.SendResume?
             || s.pc.MarkStopFailed? || s.pc.LockOld? || s.pc.MarkFailed?
    ensures TellsTruth(HelperDrain(s, ok, planOk, pendingOk))
  {
    hide Go, Send, Crash;
    match s.pc
    case Validate =>
    case AwaitPost =>
    case ReadPlan =>
    case StopUnit =>
    case SendResume =>
    case MarkStopFailed =>
    case LockOld =>
    case _ =>
  }

  lemma SwapTruth(s: State, ok: bool, pendingOk: bool)
    requires TellsTruth(s) && !s.committed
    requires s.pc.CopyOld? || s.pc.StatOld? || s.pc.ReplaceTarget? || s.pc.MarkVerifying? || s.pc.UndoReplace?
    ensures TellsTruth(HelperSwap(s, ok, pendingOk))
  {
    hide Go, Unlock;
    match s.pc
    case CopyOld =>
    case StatOld =>
    case ReplaceTarget =>
    case MarkVerifying =>
    case _ =>
  }

  lemma VerifyTruth(s: State, ok: bool, planOk: bool, pendingOk: bool)
    requires TellsTruth(s) && s.target == New && (s.pc == MarkComplete ==> s.committed)
    requires s.pc.Launch? || s.pc.Probe? || s.pc.AwaitPatch? || s.pc.MarkAccepting? || s.pc.SendPut?
             || s.pc.AwaitPut? || s.pc.MarkComplete? || s.pc.MarkUnknown?
    ensures TellsTruth(HelperVerify(s, ok, planOk, pendingOk))
  {
    hide Go, Send;
    match s.pc
    case Launch =>
    case Probe =>
    case AwaitPatch =>
    case MarkAccepting =>
    case SendPut =>
    case AwaitPut =>
    case MarkComplete =>
    case _ =>
  }

  lemma RollbackTruth(s: State, ok: bool, planOk: bool, pendingOk: bool)
    requires TellsTruth(s) && !s.inbox.put && !s.committed
    requires s.pc.MarkRolledBack? || s.pc.Restart? ==> s.target == Old
    requires s.pc.StopCandidate? || s.pc.StopCandidateUnit? || s.pc.LockNew? || s.pc.RestoreData? || s.pc.ReplaceBack?
             || s.pc.MarkRolledBack? || s.pc.Restart? || s.pc.MarkRecovery?
    ensures TellsTruth(HelperRollback(s, ok, planOk, pendingOk))
  {
    hide Go, Send, Unlock, Crash;
    match s.pc
    case StopCandidate =>
    case StopCandidateUnit =>
    case LockNew =>
    case RestoreData =>
    case ReplaceBack =>
    case MarkRolledBack =>
    case Restart =>
    case _ =>
  }

  lemma HelperTruth(s: State, ok: bool, planOk: bool, pendingOk: bool)
    requires Inv(s) && TellsTruth(s)
    ensures TellsTruth(Helper(s, ok, planOk, pendingOk))
  {
    assert ClosedInv(s);
    hide Inv, TellsTruth, HelperDrain, HelperSwap, HelperVerify, HelperRollback;
    if s.pc.CopyOld? || s.pc.StatOld? || s.pc.ReplaceTarget? || s.pc.MarkVerifying? || s.pc.UndoReplace? {
      SwapTruth(s, ok, pendingOk);
    } else if s.pc.Launch? || s.pc.Probe? || s.pc.AwaitPatch? || s.pc.MarkAccepting? || s.pc.SendPut?
              || s.pc.AwaitPut? || s.pc.MarkComplete? || s.pc.MarkUnknown? {
      VerifyTruth(s, ok, planOk, pendingOk);
    } else if s.pc.StopCandidate? || s.pc.StopCandidateUnit? || s.pc.LockNew? || s.pc.RestoreData?
              || s.pc.ReplaceBack? || s.pc.MarkRolledBack? || s.pc.Restart? || s.pc.MarkRecovery? {
      RollbackTruth(s, ok, planOk, pendingOk);
    } else if s.pc.Finished? || s.pc.Dead? {
      NothingLeft(s, ok, planOk, pendingOk);
    } else {
      DrainTruth(s, ok, planOk, pendingOk);
    }
  }

  lemma PrepareTruth(s: State, ok: bool)
    requires TellsTruth(s)
    ensures TellsTruth(Prepare(s, ok))
  {
    PrepareEarns(s, ok);
    PrepareTarget(s, ok);
    assert Prepare(s, ok).plan == s.plan || Prepare(s, ok).plan == BackupReady by { PreparePlan(s, ok); }
    hide Prepare;
  }

  lemma PreparePlan(s: State, ok: bool)
    ensures Prepare(s, ok).plan == s.plan || Prepare(s, ok).plan == BackupReady
  {
  }

  /** Nothing that bears on the record. */
  predicate Beside(s: State, t: State) {
    && t.plan == s.plan && t.target == s.target && t.committed == s.committed && (t.inbox.put ==> s.inbox.put)
    && (t.pc == s.pc || t.pc == Dead)
  }

  lemma BesideTruth(s: State, t: State)
    requires TellsTruth(s) && Beside(s, t)
    ensures TellsTruth(t)
  {
  }

  lemma PostBeside(s: State)
    ensures Beside(s, ServePost(s))
  {
    hide Reply;
    if s.program.On? && s.inbox.post {
      var s1 := s.(inbox := s.inbox.(post := false));
      assert Beside(s, s1);
      if s.program.draining {
        assert ServePost(s) == Reply(s1, Post, false);
      } else {
        assert ServePost(s) == s1.(program := s.program.(draining := true, prep := Draining));
      }
    }
  }

  lemma OptionsBeside(s: State)
    ensures Beside(s, ServeOptions(s))
  {
    OldServiceOutcome(s);
    hide ServeOptions;
  }

  lemma NewServiceBeside(s: State, ready: bool)
    ensures Beside(s, ServePatch(s, ready)) && Beside(s, ServeDelete(s))
  {
    hide Reply;
  }

  lemma ProgramBeside(s: State, a: Action)
    requires a.StartProgram? || a.CrashProgram? || a.AdmitRequest? || a.FinishRequest? || a.WriteData?
    ensures Beside(s, Step(s, a))
  {
    match a
    case StartProgram(_) =>
    case CrashProgram =>
    case AdmitRequest =>
    case FinishRequest =>
    case _ =>
  }

  lemma KillBeside(s: State)
    ensures Beside(s, HelperDies(s))
  {
    hide Go, Unlock;
  }

  lemma PutTruth(s: State, written: bool)
    requires TellsTruth(s) && (s.program.On? && s.program.updating ==> s.target == New)
    ensures TellsTruth(ServePut(s, written))
  {
    PutEarns(s, written);
    PutKeeps(s, written);
    assert ServePut(s, written).plan == s.plan by { hide Reply; }
    hide ServePut;
  }

  lemma StepTruth(s: State, a: Action)
    requires Inv(s) && TellsTruth(s)
    ensures TellsTruth(Step(s, a))
  {
    assert s.program.On? && s.program.updating ==> s.target == New;
    hide Inv, TellsTruth, Beside, Helper, Prepare, ServePost, ServeOptions, ServePatch, ServePut, ServeDelete;
    hide HelperDies, Start, Crash, Admit, Finish, Write;
    match a
    case HelperStep(ok, planOk, pendingOk) => HelperTruth(s, ok, planOk, pendingOk);
    case PrepareStep(ok) => PrepareTruth(s, ok);
    case PutArrives(written) => PutTruth(s, written);
    case PatchArrives(ready) => NewServiceBeside(s, ready); BesideTruth(s, Step(s, a));
    case PostArrives => PostBeside(s); BesideTruth(s, Step(s, a));
    case OptionsArrives => OptionsBeside(s); BesideTruth(s, Step(s, a));
    case DeleteArrives => NewServiceBeside(s, false); BesideTruth(s, Step(s, a));
    case KillHelper => KillBeside(s); BesideTruth(s, Step(s, a));
    case _ => ProgramBeside(s, a); BesideTruth(s, Step(s, a));
  }

  lemma PutKeeps(s: State, written: bool)
    ensures ServePut(s, written).target == s.target && (s.committed ==> ServePut(s, written).committed)
  {
    hide Reply;
  }

  lemma {:induction false} RunTruth(s: State, actions: seq<Action>)
    requires Inv(s) && TellsTruth(s)
    ensures TellsTruth(Run(s, actions))
    decreases |actions|
  {
    hide Inv, TellsTruth, Step;
    if |actions| > 0 {
      StepInv(s, actions[0]);
      StepTruth(s, actions[0]);
      RunTruth(Step(s, actions[0]), actions[1..]);
    }
  }

  /** In every run, what the plan says about the outcome is true: "complete" of an
      accepted program, "failed" and "rolled back" of one that is back on, or never
      left, the old binary and was not accepted, "recovery required" of one that was
      not accepted, "acceptance unknown" of one that stays on the new binary. */
  lemma RecordTellsTruth(systemd: bool, writes: nat, actions: seq<Action>)
    ensures var s := After(systemd, writes, actions);
      && (s.plan == Complete ==> s.committed && s.target == New)
      && (s.plan == Failed || s.plan == RolledBack ==> s.target == Old && !s.committed)
      && (s.plan == RecoveryRequired ==> !s.committed)
      && (s.plan == AcceptanceUnknown ==> s.target == New)
  {
    InitInv(systemd, writes);
    AfterInv(systemd, writes, actions);
    RunTruth(Init(systemd, writes), actions);
    hide Run;
  }

  // -------------------------------------------------------- what each step does

  /** An open program serves: a request is let in, its writes take effect, and it
      leaves; so do the writes of a running scheduler. */
  lemma OpenProgramServes(s: State)
    requires s.program.On?
    ensures !s.program.draining ==>
      var t := Step(s, AdmitRequest);
      && t == s.(program := s.program.(requests := s.program.requests + 1))
      && Step(t, FinishRequest) == s
      && Step(t, WriteData) == t.(writes := s.writes + 1, accepted := s.accepted + 1)
    ensures s.program.scheduler ==> Step(s, WriteData) == s.(writes := s.writes + 1, accepted := s.accepted + 1)
  {
  }

  /** What a failed instruction of the helper puts on record, once the record is
      written: a failure as long as the old binary is untouched, a call for recovery
      from then on or when the old binary could not be read. */
  lemma FailureIsRecorded(s: State)
    ensures s.pc.AwaitPost? || s.pc.LockOld? || s.pc.CopyOld? || s.pc.ReplaceTarget? ==>
      var t := Step(Step(s, FAIL), OK); t.pc == Finished && t.plan == Failed && t.pending == Failed
    ensures s.pc.StatOld? || s.pc.LockNew? || s.pc.RestoreData? || s.pc.ReplaceBack? || s.pc.Restart? ==>
      var t := Step(Step(s, FAIL), OK); t.pc == Finished && t.plan == RecoveryRequired && t.pending == RecoveryRequired
    ensures s.pc.ReadPlan? ==>
      var t := Step(s, FAIL); t.pc == Finished && t.plan == s.plan && t.pending == s.pending
  {
    hide Send, Unlock, Crash;
    if s.pc.AwaitPost? || s.pc.LockOld? || s.pc.CopyOld? || s.pc.ReplaceTarget? {
      GoesToMarkFailed(s);
      MarksFailed(Step(s, FAIL));
      hide Step;
    } else if s.pc.StatOld? || s.pc.LockNew? || s.pc.RestoreData? || s.pc.ReplaceBack? || s.pc.Restart? {
      GoesToMarkRecovery(s);
      MarksRecovery(Step(s, FAIL));
      hide Step;
    } else if s.pc.ReadPlan? {
      ReadFails(s);
      hide Step;
    }
  }

  lemma GoesToMarkFailed(s: State)
    requires s.pc.AwaitPost? || s.pc.LockOld? || s.pc.CopyOld? || s.pc.ReplaceTarget?
    ensures Step(s, FAIL).pc == MarkFailed
  {
    hide Unlock;
    match s.pc
    case AwaitPost =>
    case LockOld =>
    case CopyOld =>
    case ReplaceTarget =>
  }

  lemma MarksFailed(s: State)
    requires s.pc == MarkFailed
    ensures Step(s, OK).pc == Finished && Step(s, OK).plan == Failed && Step(s, OK).pending == Failed
  {
  }

  lemma GoesToMarkRecovery(s: State)
    requires s.pc.StatOld? || s.pc.LockNew? || s.pc.RestoreData? || s.pc.ReplaceBack? || s.pc.Restart?
    ensures Step(s, FAIL).pc == MarkRecovery
  {
    hide Unlock;
    match s.pc
    case StatOld =>
    case LockNew =>
    case RestoreData =>
    case ReplaceBack =>
    case Restart =>
  }

  lemma MarksRecovery(s: State)
    requires s.pc == MarkRecovery
    ensures var t := Step(s, OK); t.pc == Finished && t.plan == RecoveryRequired && t.pending == RecoveryRequired
  {
  }

  lemma ReadFails(s: State)
    requires s.pc == ReadPlan
    ensures Step(s, FAIL) == Go(Send(s, Options), Finished) && Step(s, FAIL).pending == s.pending
  {
  }

  /** The phases on the way: verifying once the new binary is in place, accepting before
      the gate is opened. */
  lemma ProgressIsRecorded(s: State)
    ensures s.pc.MarkVerifying? ==> Step(s, OK).pending == Verifying && Step(s, OK).pc == Launch
    ensures s.pc.MarkAccepting? ==>
      Step(s, OK).pending == Phase.Accepting && Step(s, OK).plan == Phase.Accepting && Step(s, OK).pc == SendPut
  {
    match s.pc
    case MarkVerifying =>
    case MarkAccepting =>
    case _ =>
  }

  /** When the new binary is in place but that cannot be recorded, the old one is put
      back; the candidate is neither launched nor ever accepted. */
  lemma UnrecordedReplacementIsUndone(systemd: bool, writes: nat, actions: seq<Action>, ok: bool, planOk: bool,
                                      more: seq<Action>)
    ensures var s := After(systemd, writes, actions);
      s.pc == MarkVerifying ==>
        var t := Step(s, HelperStep(ok, planOk, false));
        && t.pc == UndoReplace && Step(t, OK).target == Old && Step(t, OK).pc == Finished
        && !Run(t, more).committed && !OnTheWay(Run(t, more).pc)
  {
    var s := After(systemd, writes, actions);
    AfterInv(systemd, writes, actions);
    hide Run, Init;
    if s.pc == MarkVerifying {
      assert !s.committed && !s.inbox.put by { assert ClosedInv(s); }
      hide Inv;
      CannotMark(s, ok, planOk);
      var t := Step(s, HelperStep(ok, planOk, false));
      Undoes(t);
      hide Step;
      RunNoLonger(t, more);
    }
  }

  lemma CannotMark(s: State, ok: bool, planOk: bool)
    requires s.pc == MarkVerifying
    ensures Step(s, HelperStep(ok, planOk, false)) == Go(s, UndoReplace)
  {
  }

  lemma Undoes(s: State)
    requires s.pc == UndoReplace
    ensures Step(s, OK).target == Old && Step(s, OK).pc == Finished
  {
  }

  /** Under systemd the helper stops the old program itself: with the preparation
      confirmed its next three steps leave the program off and the lock free. */
  lemma UnitIsStopped(systemd: bool, writes: nat, actions: seq<Action>)
    ensures var s := After(systemd, writes, actions);
      s.systemd && s.pc == AwaitPost && s.answers.post == Granted && !s.exposed ==>
        var t := Step(Step(Step(s, OK), OK), OK);
        t.pc == LockOld && Offline(t)
  {
    var s := After(systemd, writes, actions);
    AfterInv(systemd, writes, actions);
    hide Run, Init;
    if s.systemd && s.pc == AwaitPost && s.answers.post == Granted && !s.exposed {
      assert LockInv(s) && PostInv(s) && DataInv(s);
      hide Inv, LockInv, PostInv, DataInv;
      StopsUnit(s);
    }
  }

  lemma StopsUnit(s: State)
    requires s.systemd && s.pc == AwaitPost && s.answers.post == Granted && s.plan == BackupReady && s.backup.Some?
    requires (s.lock == HeldByProgram <==> s.program.On?) && s.lock != HeldByHelper
    ensures var t := Step(Step(Step(s, OK), OK), OK); t.pc == LockOld && Offline(t)
  {
    var t := s.(pc := ReadPlan);
    assert Step(s, OK) == t;
    var u := s.(pc := StopUnit);
    assert Step(t, OK) == u;
    hide Step;
    UnitStops(u);
  }

  lemma UnitStops(s: State)
    requires s.pc == StopUnit && (s.lock == HeldByProgram <==> s.program.On?) && s.lock != HeldByHelper
    ensures Step(s, OK).pc == LockOld && Offline(Step(s, OK))
  {
    assert Step(s, OK) == Go(Crash(s), LockOld);
  }

  /** Giving a candidate up: it is asked to leave, and under systemd its unit is stopped,
      unless the transaction already says that it was accepted. */
  lemma CandidateIsStopped(s: State)
    ensures s.pc == StopCandidate && s.program.On? ==> Step(s, OK).inbox.delete && Step(s, OK).pc == StopCandidateUnit
    ensures s.pc == StopCandidateUnit ==>
      Step(s, OK).program == (if s.systemd && s.pending != Complete then Off else s.program)
  {
    match s.pc
    case StopCandidate =>
    case StopCandidateUnit =>
    case _ =>
  }

  /** A helper that could not use the preparation, or not stop the old program, sets it
      going again: once its request is served the gate is open, and the scheduler runs. */
  lemma OldProgramIsResumed(systemd: bool, writes: nat, actions: seq<Action>)
    ensures var s := After(systemd, writes, actions);
      (s.pc.ReadPlan? || s.pc.StopUnit?) && s.program.On? ==>
        var asked := if s.pc.ReadPlan? then Step(s, FAIL) else Step(Step(s, FAIL), OK);
        var t := Step(asked, OptionsArrives);
        t.program.On? && !t.program.draining && (s.program.scheduler || s.program.paused ==> t.program.scheduler)
  {
    var s := After(systemd, writes, actions);
    AfterInv(systemd, writes, actions);
    hide Run, Init;
    if (s.pc.ReadPlan? || s.pc.StopUnit?) && s.program.On? {
      assert PostInv(s) && ClosedInv(s);
      assert s.target == Old && !s.program.updating && s.program.prep == Idle;
      hide Inv, PostInv, ClosedInv;
      if s.pc.ReadPlan? {
        ReadFails(s);
        Resumes(s, Step(s, FAIL));
      } else {
        assert Step(s, FAIL) == Go(s, SendResume);
        ResumeSent(Go(s, SendResume));
        Resumes(s, Step(Step(s, FAIL), OK));
      }
      hide Step;
    }
  }

  lemma ResumeSent(s: State)
    requires s.pc == SendResume
    ensures Step(s, OK) == Go(Send(s, Options), MarkStopFailed)
  {
  }

  lemma Resumes(s: State, t: State)
    requires s.program.On? && s.target == Old && !s.program.updating && s.program.prep == Idle
    requires t.program == s.program && t.target == s.target && t.inbox.options
    ensures var u := Step(t, OptionsArrives);
      u.program.On? && !u.program.draining && (s.program.scheduler || s.program.paused ==> u.program.scheduler)
  {
  }

  /** A proof of readiness is not used twice: after each probe only an answer given to it
      leads on to acceptance. */
  lemma ReadinessIsFresh(systemd: bool, writes: nat, actions: seq<Action>, planOk: bool, pendingOk: bool,
                         more: seq<Action>)
    ensures var s := After(systemd, writes, actions);
      s.pc == Probe ==>
        var t := Step(s, HelperStep(true, planOk, pendingOk));
        OnTheWay(Run(t, more).pc) || Run(t, more).committed ==> ProvesReady(t, more)
  {
    var s := After(systemd, writes, actions);
    AfterInv(systemd, writes, actions);
    hide Run, Init;
    if s.pc == Probe {
      assert ClosedInv(s);
      assert !s.committed && !s.inbox.put;
      hide Inv, ClosedInv;
      var t := Step(s, HelperStep(true, planOk, pendingOk));
      assert t == Go(Send(s, Patch), AwaitPatch) && t.answers.patch == Unheard && !t.inbox.put;
      RunEarned(t, more, false, false);
    }
  }
}
