/** How a self-update leaves the service behind: when a helper that gave up leaves
    the old program closed, and when an accepted program stays open. */
module UpdateOutcomes {
  import opened UpdateProtocol
  import opened UpdateTheorems

  predicate NoCrash(actions: seq<Action>) { CrashProgram !in actions }

  lemma RunSingle(s: State, a: Action)
    ensures Run(s, [a]) == Step(s, a)
  {
    hide Step;
    assert [a][1..] == [];
  }

  // ------------------------------------------------- the old program, given up

  /** The helper has given the update up and the old program is running. */
  predicate GaveUp(s: State) {
    (s.pc.MarkFailed? || s.pc.Finished? || s.pc.Dead?) && s.target == Old && s.program.On?
  }

  /** The gate is closed and nobody is left who would open it. */
  predicate GateShut(s: State)
    requires s.program.On?
  {
    s.program.draining && s.program.prep.Idle? && !s.inbox.options
  }

  /** The scheduler is stopped and nobody is left who would start it. */
  predicate SchedulerHalted(s: State)
    requires s.program.On?
  {
    !s.program.scheduler && s.program.prep.Idle? && !(s.inbox.options && s.program.paused)
  }

  /** The scheduler runs until a preparation stops it, and from then on `paused`
      says so. */
  predicate PauseInv(s: State) {
    s.program.On? && s.target == Old ==>
      && (s.pc.Validate? || s.inbox.post || s.program.prep.Draining? || s.program.prep.Drained? ==>
            s.program.scheduler && !s.program.paused)
      && (s.pc.Validate? || s.inbox.post ==> !s.program.draining && s.program.prep.Idle?)
      && (s.program.prep.Paused? || s.program.prep.Saved? || s.program.prep.PlanSaved? ==> s.program.paused)
  }

  /** The helper neither starts the old program nor changes what it is doing, and asks
      it to prepare only once. */
  predicate LeavesProgram(s: State, t: State) {
    t.program.On? && t.target == Old ==>
      s.target == Old && t.program == s.program && (t.inbox.post ==> s.inbox.post || s.pc.Validate?)
  }

  lemma DrainLeaves(s: State, ok: bool, planOk: bool, pendingOk: bool)
    requires s.pc.Validate? || s.pc.AwaitPost? || s.pc.ReadPlan? || s.pc.StopUnit? || s.pc.SendResume?
             || s.pc.MarkStopFailed? || s.pc.LockOld? || s.pc.MarkFailed?
    ensures LeavesProgram(s, HelperDrain(s, ok, planOk, pendingOk))
  {
    match s.pc
    case Validate =>
    case AwaitPost =>
    case ReadPlan =>
    case StopUnit =>
    case SendResume =>
    case MarkStopFailed =>
    case LockOld =>
    case _ =>
  }

  lemma SwapLeaves(s: State, ok: bool, pendingOk: bool)
    requires s.program == Off
    requires s.pc.CopyOld? || s.pc.StatOld? || s.pc.ReplaceTarget? || s.pc.MarkVerifying? || s.pc.UndoReplace?
    ensures HelperSwap(s, ok, pendingOk).program == Off
  {
  }

  lemma VerifyLeaves(s: State, ok: bool, planOk: bool, pendingOk: bool)
    requires s.target == New
    ensures HelperVerify(s, ok, planOk, pendingOk).target == New
  {
    hide Go, Send, Save;
    match s.pc
    case Launch =>
    case Probe =>
    case AwaitPatch =>
    case MarkAccepting =>
    case SendPut =>
    case AwaitPut =>
    case MarkComplete =>
    case MarkUnknown =>
    case _ =>
  }

  /** A rollback reaches the old binary only with the program off ... */
  lemma RollbackLeaves(s: State, ok: bool, planOk: bool, pendingOk: bool)
    requires s.pc.StopCandidate? || s.pc.StopCandidateUnit? || s.pc.LockNew? || s.pc.RestoreData? || s.pc.ReplaceBack?
    requires s.target == New && (s.pc.ReplaceBack? ==> s.program == Off)
    ensures var t := HelperRollback(s, ok, planOk, pendingOk); t.target == New || t.program == Off
  {
    hide Go, Unlock, Send;
    match s.pc
    case StopCandidate =>
    case StopCandidateUnit =>
    case LockNew =>
    case RestoreData =>
    case _ =>
  }

  /** ... and then leaves the program and its mail alone. */
  lemma RolledBackLeaves(s: State, ok: bool, planOk: bool, pendingOk: bool)
    requires s.pc.MarkRolledBack? || s.pc.Restart? || s.pc.MarkRecovery?
    ensures LeavesProgram(s, HelperRollback(s, ok, planOk, pendingOk))
  {
    hide Go, Unlock, Save;
    match s.pc
    case MarkRolledBack =>
    case Restart =>
    case _ =>
  }

  lemma HelperLeaves(s: State, ok: bool, planOk: bool, pendingOk: bool)
    requires Inv(s) && !s.pc.Finished? && !s.pc.Dead?
    ensures LeavesProgram(s, Helper(s, ok, planOk, pendingOk))
  {
    assert LockInv(s) && ClosedInv(s);
    hide Inv, HelperDrain, HelperSwap, HelperVerify, HelperRollback;
    if s.pc.CopyOld? || s.pc.StatOld? || s.pc.ReplaceTarget? || s.pc.MarkVerifying? || s.pc.UndoReplace? {
      SwapLeaves(s, ok, pendingOk);
    } else if s.pc.Launch? || s.pc.Probe? || s.pc.AwaitPatch? || s.pc.MarkAccepting? || s.pc.SendPut?
              || s.pc.AwaitPut? || s.pc.MarkComplete? || s.pc.MarkUnknown? {
      VerifyLeaves(s, ok, planOk, pendingOk);
    } else if s.pc.StopCandidate? || s.pc.StopCandidateUnit? || s.pc.LockNew? || s.pc.RestoreData?
              || s.pc.ReplaceBack? {
      RollbackLeaves(s, ok, planOk, pendingOk);
    } else if s.pc.MarkRolledBack? || s.pc.Restart? || s.pc.MarkRecovery? {
      RolledBackLeaves(s, ok, planOk, pendingOk);
    } else {
      DrainLeaves(s, ok, planOk, pendingOk);
    }
  }

  lemma HelperMovesOn(s: State, ok: bool, planOk: bool, pendingOk: bool)
    ensures !Helper(s, ok, planOk, pendingOk).pc.Validate?
  {
    hide Go, Unlock, Save, Send, Crash;
    assert !s.pc.Validate? ==> !HelperDrain(s, ok, planOk, pendingOk).pc.Validate?;
  }

  lemma HelperPause(s: State, ok: bool, planOk: bool, pendingOk: bool)
    requires Inv(s) && PauseInv(s)
    ensures PauseInv(Helper(s, ok, planOk, pendingOk))
  {
    if s.pc.Finished? || s.pc.Dead? {
      NothingLeft(s, ok, planOk, pendingOk);
    } else {
      HelperLeaves(s, ok, planOk, pendingOk);
      HelperMovesOn(s, ok, planOk, pendingOk);
    }
    hide Inv, Helper;
  }

  lemma ProgramPause(s: State, a: Action)
    requires Inv(s) && PauseInv(s)
    requires a.StartProgram? || a.CrashProgram? || a.AdmitRequest? || a.FinishRequest? || a.WriteData? || a.KillHelper?
    ensures PauseInv(Step(s, a))
  {
    hide PostInv, GateInv, DataInv, At;
    match a
    case StartProgram(_) =>
    case CrashProgram =>
    case AdmitRequest =>
    case FinishRequest =>
    case WriteData =>
    case _ =>
  }

  lemma ReopenPause(s: State)
    requires s.program.On? && s.program.prep != Idle && PostInv(s)
    ensures PauseInv(Reopen(s))
  {
  }

  lemma PreparePause(s: State, ok: bool)
    requires PauseInv(s) && PostInv(s)
    ensures PauseInv(Prepare(s, ok))
  {
    if s.program.On? && s.program.prep != Idle {
      if !ok || Refused(s) {
        ReopenPause(s);
        hide Reopen, PauseInv;
      } else {
        hide PostInv;
        match s.program.prep
        case Draining =>
        case Drained =>
        case Paused =>
        case Saved =>
        case _ =>
      }
    }
  }

  lemma OldServicePause(s: State)
    requires PostInv(s) && PauseInv(s)
    ensures PauseInv(ServePost(s)) && PauseInv(ServeOptions(s))
  {
  }

  lemma NewServicePause(s: State, ready: bool, written: bool)
    requires ClosedInv(s) && PauseInv(s)
    ensures PauseInv(ServePatch(s, ready)) && PauseInv(ServePut(s, written)) && PauseInv(ServeDelete(s))
  {
    hide At;
  }

  lemma StepPause(s: State, a: Action)
    requires Inv(s) && PauseInv(s)
    ensures PauseInv(Step(s, a))
  {
    assert PostInv(s) && ClosedInv(s);
    hide Inv, PostInv, ClosedInv, PauseInv, Helper, Prepare, ServePost, ServeOptions, ServePatch, ServePut, ServeDelete;
    match a
    case HelperStep(ok, planOk, pendingOk) => HelperPause(s, ok, planOk, pendingOk);
    case PostArrives => OldServicePause(s);
    case PrepareStep(ok) => PreparePause(s, ok);
    case OptionsArrives => OldServicePause(s);
    case PatchArrives(ready) => NewServicePause(s, ready, false);
    case PutArrives(written) => NewServicePause(s, false, written);
    case DeleteArrives => NewServicePause(s, false, false);
    case _ => ProgramPause(s, a);
  }

  lemma {:induction false} RunPause(s: State, actions: seq<Action>)
    requires Inv(s) && PauseInv(s)
    ensures Inv(Run(s, actions)) && PauseInv(Run(s, actions))
    decreases |actions|
  {
    hide Inv, PauseInv, Step;
    if |actions| > 0 {
      StepInv(s, actions[0]);
      StepPause(s, actions[0]);
      RunPause(Step(s, actions[0]), actions[1..]);
    }
  }

  lemma AfterPause(systemd: bool, writes: nat, actions: seq<Action>)
    ensures Inv(After(systemd, writes, actions)) && PauseInv(After(systemd, writes, actions))
  {
    InitInv(systemd, writes);
    hide Run;
    RunPause(Init(systemd, writes), actions);
  }

  // ------------------------------------------------------- does it run on?

  predicate StaysShut(s: State, more: seq<Action>) { Run(s, more).program.On? && Run(s, more).program.draining }

  predicate StaysHalted(s: State, more: seq<Action>) { Run(s, more).program.On? && !Run(s, more).program.scheduler }

  /** Everything the given-up program depends on. */
  ghost predicate Settled(s: State) { Inv(s) && PauseInv(s) && GaveUp(s) }

  /** A step that neither serves a request of the helper to the old program nor
      continues the preparation leaves what matters as it is. */
  predicate Aside(s: State, t: State) {
    && GaveUp(t) && s.program.On?
    && t.program == s.program.(requests := t.program.requests)
    && t.inbox.post == s.inbox.post && t.inbox.options == s.inbox.options
    && (t.pending == s.pending || t.pending == Failed)
  }

  lemma HelperAside(s: State, ok: bool, planOk: bool, pendingOk: bool)
    requires GaveUp(s)
    ensures Aside(s, Helper(s, ok, planOk, pendingOk))
  {
    if s.pc.MarkFailed? {
      assert Helper(s, ok, planOk, pendingOk) == Go(Save(s, Failed, planOk, pendingOk), Finished);
    } else {
      NothingLeft(s, ok, planOk, pendingOk);
    }
  }

  lemma AsideItself(s: State, t: State)
    requires GaveUp(s) && t.pc == s.pc && t.target == s.target && t.program == s.program && t.pending == s.pending
    requires t.inbox.post == s.inbox.post && t.inbox.options == s.inbox.options
    ensures Aside(s, t)
  {
  }

  lemma PatchAside(s: State, ready: bool)
    requires GaveUp(s)
    ensures Aside(s, ServePatch(s, ready))
  {
    hide Reply;
    AsideItself(s, ServePatch(s, ready));
    hide Aside, GaveUp;
  }

  lemma PutAside(s: State, written: bool)
    requires GaveUp(s) && !s.program.updating
    ensures Aside(s, ServePut(s, written))
  {
    hide Reply;
    AsideItself(s, ServePut(s, written));
    hide Aside, GaveUp;
  }

  lemma DeleteAside(s: State)
    requires GaveUp(s)
    ensures Aside(s, ServeDelete(s))
  {
    hide Reply;
    AsideItself(s, ServeDelete(s));
    hide Aside, GaveUp;
  }

  lemma KillAside(s: State)
    requires GaveUp(s)
    ensures Aside(s, HelperDies(s))
  {
    if s.pc.Finished? {
      assert HelperDies(s) == s;
      AsideItself(s, s);
    } else {
      var t := Go(Unlock(s), Dead);
      assert HelperDies(s) == t;
      assert GaveUp(t) && Aside(s, t);
    }
    hide HelperDies, Aside, GaveUp;
  }

  lemma StartAside(s: State, readable: bool)
    requires GaveUp(s)
    ensures Aside(s, Start(s, readable))
  {
    AsideItself(s, s);
    assert s.program != Off;
    hide Aside, GaveUp;
  }

  lemma AdmitAside(s: State)
    requires GaveUp(s)
    ensures Aside(s, Admit(s))
  {
    var t := s.(program := s.program.(requests := s.program.requests + 1));
    assert Aside(s, t) && Aside(s, s);
    assert Admit(s) == t || Admit(s) == s by { hide Aside, GaveUp; }
    hide Admit, Aside;
  }

  lemma FinishAside(s: State)
    requires GaveUp(s)
    ensures Aside(s, Finish(s))
  {
    if s.program.requests > 0 {
      var t := s.(program := s.program.(requests := s.program.requests - 1));
      assert Aside(s, t);
      assert Finish(s) == t;
    } else {
      assert Finish(s) == s;
    }
    hide Finish;
  }

  lemma WriteAside(s: State)
    requires GaveUp(s)
    ensures Aside(s, Write(s))
  {
    hide Aside;
    AsideItself(s, Write(s));
  }

  lemma StepAside(s: State, a: Action)
    requires GaveUp(s) && !s.program.updating
    requires a != CrashProgram && a != PostArrives && a != OptionsArrives && !a.PrepareStep?
    ensures Aside(s, Step(s, a))
  {
    hide Aside, Helper, HelperDies, Start, Admit, Finish, Write, ServePatch, ServePut, ServeDelete;
    match a
    case HelperStep(ok, planOk, pendingOk) => HelperAside(s, ok, planOk, pendingOk);
    case PatchArrives(ready) => PatchAside(s, ready);
    case PutArrives(written) => PutAside(s, written);
    case DeleteArrives => DeleteAside(s);
    case KillHelper => KillAside(s);
    case StartProgram(readable) => StartAside(s, readable);
    case AdmitRequest => AdmitAside(s);
    case FinishRequest => FinishAside(s);
    case WriteData => WriteAside(s);
  }

  /** What serving the drain request does to an old program. */
  lemma PostServed(s: State)
    requires GaveUp(s)
    ensures var t := ServePost(s);
      && GaveUp(t) && t.pending == s.pending && !t.inbox.post && t.inbox.options == s.inbox.options
      && t.program == if s.inbox.post && !s.program.draining
                      then s.program.(draining := true, prep := Draining) else s.program
  {
  }

  lemma OptionsServed(s: State)
    requires GaveUp(s) && !s.program.updating && s.inbox.options && s.program.prep == Idle
    ensures var t := ServeOptions(s);
      && GaveUp(t) && t.pending == s.pending && t.inbox.post == s.inbox.post && !t.inbox.options
      && t.program == s.program.(draining := false, paused := false,
                                 scheduler := s.program.scheduler || s.program.paused)
  {
  }

  lemma NoOptionsServed(s: State)
    requires GaveUp(s) && !(s.inbox.options && s.program.prep == Idle)
    requires s.inbox.options ==> s.program.prep == Idle
    ensures ServeOptions(s) == s
  {
  }

  lemma PreparationFails(s: State, ok: bool)
    requires GaveUp(s) && s.program.prep != Idle && (!ok || Refused(s))
    ensures var t := Prepare(s, ok);
      && GaveUp(t) && t.pending == s.pending && t.inbox == s.inbox
      && t.program == s.program.(draining := false, prep := Idle, paused := false, scheduler := t.program.scheduler)
      && t.program.scheduler == (!s.program.prep.Drained? && (s.program.scheduler || s.program.paused))
  {
  }

  lemma PreparationGoesOn(s: State)
    requires GaveUp(s) && s.program.prep != Idle && !Refused(s)
    ensures var t := Prepare(s, true);
      && GaveUp(t) && t.inbox == s.inbox && (t.pending == s.pending || t.program.prep == Idle)
      && match s.program.prep
         case Draining =>
           t.program == if s.program.requests == 0 then s.program.(prep := Drained) else s.program
         case Drained => t.program == s.program.(scheduler := false, paused := true, prep := Paused)
         case Paused => t.program == s.program.(prep := Saved)
         case Saved => t.program == s.program.(prep := PlanSaved)
         case PlanSaved => t.program == s.program.(prep := Idle)
         case Idle => true
  {
    match s.program.prep
    case Draining =>
    case Drained =>
    case Paused =>
    case Saved =>
    case _ =>
  }

  /** All that can happen to an old program the helper has given up. */
  lemma GaveUpStep(s: State, a: Action)
    requires Settled(s) && a != CrashProgram
    ensures GaveUp(Step(s, a))
    ensures a != PostArrives && a != OptionsArrives && !a.PrepareStep? ==> Aside(s, Step(s, a))
    ensures !s.program.updating && (s.inbox.options ==> s.program.prep == Idle)
    ensures s.program.prep != Idle ==> s.program.draining && !s.inbox.post
  {
    assert PostInv(s) && ClosedInv(s) && GateInv(s);
    hide Inv, PostInv, ClosedInv, PauseInv, At, ServePost, ServeOptions, Prepare;
    assert !s.program.updating by { assert s.target == Old; }
    match a
    case PostArrives => PostServed(s);
    case OptionsArrives =>
      if s.inbox.options && s.program.prep == Idle { OptionsServed(s); } else { NoOptionsServed(s); }
    case PrepareStep(ok) =>
      if s.program.prep != Idle {
        if !ok || Refused(s) { PreparationFails(s, ok); } else { PreparationGoesOn(s); }
      }
    case _ => StepAside(s, a);
  }

  lemma SettledStep(s: State, a: Action)
    requires Settled(s) && a != CrashProgram
    ensures Settled(Step(s, a))
  {
    GaveUpStep(s, a);
    StepInv(s, a);
    StepPause(s, a);
    hide Inv, PauseInv, Step;
  }

  /** Nothing but a restart opens a gate that is shut. */
  lemma ShutStep(s: State, a: Action)
    requires Settled(s) && GateShut(s) && a != CrashProgram
    ensures Step(s, a).program.On? && GateShut(Step(s, a))
  {
    GaveUpStep(s, a);
    hide Settled, ServePost, ServeOptions;
    PostServed(s);
    if a == OptionsArrives { NoOptionsServed(s); }
    if a != PostArrives && a != OptionsArrives && !a.PrepareStep? { hide Step; }
  }

  lemma HaltedStep(s: State, a: Action)
    requires Settled(s) && SchedulerHalted(s) && a != CrashProgram
    ensures Step(s, a).program.On? && SchedulerHalted(Step(s, a))
  {
    GaveUpStep(s, a);
    assert !s.inbox.post by { assert PauseInv(s); }
    hide Settled, ServePost, ServeOptions;
    PostServed(s);
    if a == OptionsArrives {
      if s.inbox.options { OptionsServed(s); } else { NoOptionsServed(s); }
    }
    if a != PostArrives && a != OptionsArrives && !a.PrepareStep? { hide Step; }
  }

  lemma {:induction false} ShutRun(s: State, more: seq<Action>)
    requires Settled(s) && GateShut(s) && NoCrash(more)
    ensures StaysShut(s, more)
    decreases |more|
  {
    if |more| > 0 {
      SettledStep(s, more[0]);
      ShutStep(s, more[0]);
      hide Settled, Step, GateShut;
      ShutRun(Step(s, more[0]), more[1..]);
    }
  }

  lemma {:induction false} HaltedRun(s: State, more: seq<Action>)
    requires Settled(s) && SchedulerHalted(s) && NoCrash(more)
    ensures StaysHalted(s, more)
    decreases |more|
  {
    if |more| > 0 {
      SettledStep(s, more[0]);
      HaltedStep(s, more[0]);
      hide Settled, Step, SchedulerHalted;
      HaltedRun(Step(s, more[0]), more[1..]);
    }
  }

  /** A gate that is not shut can be opened without a restart. */
  lemma NotShutOpens(s: State)
    requires Settled(s) && !GateShut(s)
    ensures exists more: seq<Action> :: NoCrash(more) && !StaysShut(s, more)
  {
    if !s.program.draining {
      assert Run(s, []) == s;
      assert !StaysShut(s, []);
    } else if s.program.prep != Idle {
      RunSingle(s, PrepareStep(false));
      assert !StaysShut(s, [PrepareStep(false)]);
    } else {
      assert ClosedInv(s);
      RunSingle(s, OptionsArrives);
      assert !StaysShut(s, [OptionsArrives]);
    }
  }

  lemma NotHaltedStarts(s: State)
    requires Settled(s) && !SchedulerHalted(s)
    ensures exists more: seq<Action> :: NoCrash(more) && !StaysHalted(s, more)
  {
    if s.program.scheduler {
      assert Run(s, []) == s;
      assert !StaysHalted(s, []);
    } else if s.program.prep != Idle {
      RunSingle(s, PrepareStep(false));
      assert !StaysHalted(s, [PrepareStep(false)]);
    } else {
      assert ClosedInv(s);
      RunSingle(s, OptionsArrives);
      assert !StaysHalted(s, [OptionsArrives]);
    }
  }

  /** When the helper has given up, it records that the old service runs on. Until a
      restart the old program's gate stays closed in every continuation if and only
      if it is closed, no preparation is under way and no resume request is pending. */
  lemma GateStaysShutIff(systemd: bool, writes: nat, actions: seq<Action>)
    ensures var s := After(systemd, writes, actions);
      GaveUp(s) ==>
        ((forall more: seq<Action> :: NoCrash(more) ==> StaysShut(s, more)) <==> GateShut(s))
  {
    var s := After(systemd, writes, actions);
    AfterPause(systemd, writes, actions);
    hide Run, Inv, PauseInv;
    if GaveUp(s) {
      if GateShut(s) {
        forall more: seq<Action> | NoCrash(more) ensures StaysShut(s, more) {
          ShutRun(s, more);
        }
      } else {
        NotShutOpens(s);
      }
    }
  }

  /** ... and its scheduler stays stopped if and only if it is stopped, no preparation
      is under way, and no resume request is pending that would find it paused. */
  lemma SchedulerStaysHaltedIff(systemd: bool, writes: nat, actions: seq<Action>)
    ensures var s := After(systemd, writes, actions);
      GaveUp(s) ==>
        ((forall more: seq<Action> :: NoCrash(more) ==> StaysHalted(s, more)) <==> SchedulerHalted(s))
  {
    var s := After(systemd, writes, actions);
    AfterPause(systemd, writes, actions);
    hide Run, Inv, PauseInv;
    if GaveUp(s) {
      if SchedulerHalted(s) {
        forall more: seq<Action> | NoCrash(more) ensures StaysHalted(s, more) {
          HaltedRun(s, more);
        }
      } else {
        NotHaltedStarts(s);
      }
    }
  }

  // ------------------------------------------------------- can it still stop?

  /** The old service is stopped, or will or may still be by a preparation that the
      helper no longer waits for: one whose request is pending or that is under
      way, unless it has just read a transaction it will refuse. */
  predicate MayStop(s: State)
    requires s.program.On?
  {
    || GateShut(s) || SchedulerHalted(s)
    || s.inbox.post
    || (s.program.prep != Idle && (s.program.prep.Paused? ==> s.pending == Installing))
  }

  predicate Stops(s: State, more: seq<Action>) {
    var t := Run(s, more);
    t.program.On? && (GateShut(t) || SchedulerHalted(t))
  }

  lemma SafeStep(s: State, a: Action)
    requires Settled(s) && !MayStop(s) && a != CrashProgram
    ensures Step(s, a).program.On? && !MayStop(Step(s, a))
  {
    GaveUpStep(s, a);
    assert s.program.prep.Paused? ==> s.program.paused && !s.inbox.options by { assert PauseInv(s); }
    hide Settled, ServePost, ServeOptions, Prepare;
    match a
    case PostArrives => PostServed(s);
    case OptionsArrives =>
      if s.inbox.options && s.program.prep == Idle { OptionsServed(s); } else { NoOptionsServed(s); }
    case PrepareStep(ok) => if s.program.prep != Idle { PreparationFails(s, ok); }
    case _ => hide Step;
  }

  lemma {:induction false} SafeRun(s: State, more: seq<Action>)
    requires Settled(s) && !MayStop(s) && NoCrash(more)
    ensures !Stops(s, more)
    decreases |more|
  {
    if |more| > 0 {
      SettledStep(s, more[0]);
      SafeStep(s, more[0]);
      hide Settled, Step, MayStop;
      SafeRun(Step(s, more[0]), more[1..]);
    }
  }

  /** How many steps of a preparation are left before it has stopped the service. */
  function Ahead(s: State): nat
    requires s.program.On?
  {
    if s.inbox.post then 6
    else
      match s.program.prep
      case Draining => 5
      case Drained => 1
      case Paused => 3
      case Saved => 2
      case PlanSaved => 1
      case Idle => 0
  }

  /** The next step of a preparation that goes on, up to the point where it stops the
      service. */
  function NextStep(s: State): Action
    requires s.program.On?
  {
    if s.inbox.post then PostArrives
    else if s.program.prep.Draining? && s.program.requests > 0 then FinishRequest
    else PrepareStep(!s.program.prep.Drained?)
  }

  lemma StopsNearer(s: State)
    requires Settled(s) && MayStop(s) && !GateShut(s) && !SchedulerHalted(s)
    ensures var t := Step(s, NextStep(s));
      && t.program.On? && MayStop(t)
      && (Ahead(t) < Ahead(s)
          || (Ahead(t) == Ahead(s) && t.program.requests < s.program.requests)
          || GateShut(t) || SchedulerHalted(t))
  {
    GaveUpStep(s, NextStep(s));
    assert s.inbox.post ==> !s.program.draining && s.program.prep.Idle? by { assert PauseInv(s); }
    assert !s.program.prep.Idle? ==> !s.inbox.options;
    hide Settled, ServePost, Prepare;
    if s.inbox.post {
      PostServed(s);
    } else if s.program.prep.Draining? && s.program.requests > 0 {
      assert Step(s, FinishRequest) == s.(program := s.program.(requests := s.program.requests - 1));
    } else if s.program.prep.Drained? {
      PreparationFails(s, false);
    } else {
      PreparationGoesOn(s);
    }
  }

  lemma {:induction false} CanStop(s: State) returns (more: seq<Action>)
    requires Settled(s) && MayStop(s)
    ensures NoCrash(more) && Stops(s, more)
    decreases Ahead(s), s.program.requests
  {
    if GateShut(s) || SchedulerHalted(s) {
      more := [];
    } else {
      var a := NextStep(s);
      var t := Step(s, a);
      SettledStep(s, a);
      StopsNearer(s);
      hide Settled, Step, MayStop;
      if GateShut(t) || SchedulerHalted(t) {
        more := [a];
        RunSingle(s, a);
      } else {
        var rest := CanStop(t);
        more := [a] + rest;
        RunOne(s, a, rest);
      }
    }
  }

  /** The exact condition under which "the old service runs on" can still fail once
      the helper has given up: a continuation without a restart ends with the gate
      shut or the scheduler halted - for good, by the two theorems above - if and
      only if that is so already, the drain request is still pending, or a
      preparation is under way that will not be refused. */
  lemma OldServiceMayStopIff(systemd: bool, writes: nat, actions: seq<Action>)
    ensures var s := After(systemd, writes, actions);
      GaveUp(s) ==>
        ((exists more: seq<Action> :: NoCrash(more) && Stops(s, more)) <==> MayStop(s))
  {
    var s := After(systemd, writes, actions);
    AfterPause(systemd, writes, actions);
    hide Run, Inv, PauseInv;
    if GaveUp(s) {
      if MayStop(s) {
        var more := CanStop(s);
      } else {
        forall more: seq<Action> | NoCrash(more) ensures !Stops(s, more) {
          SafeRun(s, more);
        }
      }
    }
  }

  // ------------------------------------------------------------------- instances

  /** The old program after a preparation it completed but whose reply the helper
      never read. */
  predicate Stranded(s: State) {
    && (s.pc == MarkFailed || s.pc == Finished || s.pc == Dead)
    && s.program.On? && s.program.draining && !s.program.scheduler && s.program.requests == 0
    && s.program.prep == Idle && !s.program.updating
    && !s.inbox.post && !s.inbox.options && !s.inbox.put
  }

  lemma StrandedStep(s: State, a: Action)
    requires Stranded(s) && a != CrashProgram
    ensures Stranded(Step(s, a)) && Step(s, a).accepted == s.accepted
  {
  }

  lemma {:induction false} StrandedRun(s: State, actions: seq<Action>)
    requires Stranded(s) && CrashProgram !in actions
    ensures Stranded(Run(s, actions)) && Run(s, actions).accepted == s.accepted
    decreases |actions|
  {
    hide Stranded, Step;
    if |actions| > 0 {
      StrandedStep(s, actions[0]);
      StrandedRun(Step(s, actions[0]), actions[1..]);
    }
  }

  /** When the old program has prepared but the helper misses the reply, the helper
      records a failure without sending OPTIONS: until it is restarted the old
      program, if it keeps running, admits no request and writes nothing. */
  lemma LostReplyStrandsOldProgram(systemd: bool, writes: nat, actions: seq<Action>, more: seq<Action>)
    requires CrashProgram !in more
    ensures var s := After(systemd, writes, actions);
            s.pc == AwaitPost && s.answers.post == Granted && s.program.On? && !s.exposed ==>
              var t := Run(Step(s, FAIL), more);
              t.program.On? && t.program.draining && !t.program.scheduler && t.accepted == s.accepted
  {
    var s := After(systemd, writes, actions);
    AfterInv(systemd, writes, actions);
    if s.pc == AwaitPost && s.answers.post == Granted && s.program.On? && !s.exposed {
      hide Run;
      assert Stranded(Step(s, FAIL));
      StrandedRun(Step(s, FAIL), more);
    }
  }

  /** So does a preparation that completes after the helper stopped waiting. */
  lemma LatePreparationStrandsOldProgram(systemd: bool, writes: nat, actions: seq<Action>)
    ensures var s := After(systemd, writes, actions);
            s.pc == AwaitPost && s.program.On? && s.program.prep == PlanSaved ==>
              var t := Step(Step(s, FAIL), PrepareStep(true));
              GaveUp(t) && GateShut(t)
  {
    var s := After(systemd, writes, actions);
    AfterInv(systemd, writes, actions);
    hide Run, Init;
    if s.pc == AwaitPost && s.program.On? && s.program.prep == PlanSaved {
      assert PostInv(s) && ClosedInv(s);
      hide Inv, LockInv, GateInv, DataInv;
      var t := Step(s, FAIL);
      assert t == Go(s, MarkFailed) && !Refused(t);
      assert Step(t, PrepareStep(true)) == Advance(t);
    }
  }

  /** A scheduler that does not stop in time fails the preparation; the gate reopens
      but the scheduler stays stopped. */
  lemma SlowSchedulerHalts(systemd: bool, writes: nat, actions: seq<Action>)
    ensures var s := After(systemd, writes, actions);
            s.pc == AwaitPost && s.program.On? && s.program.prep == Drained ==>
              var t := Step(Step(s, PrepareStep(false)), OK);
              GaveUp(t) && !t.program.draining && SchedulerHalted(t)
  {
    AfterInv(systemd, writes, actions);
    hide Run;
  }

  // ------------------------------------------------------- the accepted program

  /** After acceptance the transaction says so, until the helper records that it
      does not know. */
  predicate AcceptedInv(s: State) {
    s.committed ==>
      && s.target == New
      && (s.pending == Complete || (s.pending == AcceptanceUnknown && (s.pc.Finished? || s.pc.Dead?)))
  }

  lemma HelperAccepted(s: State, ok: bool, planOk: bool, pendingOk: bool)
    requires Inv(s) && AcceptedInv(s)
    ensures AcceptedInv(Helper(s, ok, planOk, pendingOk))
  {
    HelperGrows(s, ok, planOk, pendingOk);
    if s.committed {
      assert At(s.pc).putSent && s.pc != RestoreData by { CommittedPlace(s); }
      hide Inv, Grows;
      AcceptedMoves(s, ok, planOk, pendingOk);
    }
    hide Helper, Inv;
  }

  /** What the helper still does once the accept handler has run. */
  lemma AcceptedMoves(s: State, ok: bool, planOk: bool, pendingOk: bool)
    requires At(s.pc).putSent
    ensures Helper(s, ok, planOk, pendingOk) ==
      match s.pc
      case AwaitPut => Go(s, if ok && s.answers.put == Granted then MarkComplete else MarkUnknown)
      case MarkComplete => Go(Save(s, Complete, planOk, pendingOk), Finished)
      case MarkUnknown => Go(Save(s, AcceptanceUnknown, planOk, pendingOk), Finished)
      case _ => s
  {
    hide Go, Save;
    match s.pc
    case AwaitPut =>
    case MarkComplete =>
    case MarkUnknown =>
    case Finished =>
    case Dead =>
  }

  /** Only the helper and the accept handler touch an accepted transaction. */
  predicate SameOutcome(s: State, t: State) {
    && t.committed == s.committed && t.pending == s.pending && t.target == s.target
    && (t.pc == s.pc || t.pc == Dead || s.pc == Finished)
  }

  lemma ProgramOutcome(s: State, a: Action)
    requires a.StartProgram? || a.CrashProgram? || a.AdmitRequest? || a.FinishRequest? || a.WriteData?
    ensures SameOutcome(s, Step(s, a)) && Step(s, a).pc == s.pc
  {
    match a
    case StartProgram(_) =>
    case CrashProgram =>
    case AdmitRequest =>
    case FinishRequest =>
    case _ =>
  }

  lemma OldServiceOutcome(s: State)
    ensures SameOutcome(s, ServePost(s)) && ServePost(s).pc == s.pc
    ensures SameOutcome(s, ServeOptions(s)) && ServeOptions(s).pc == s.pc
    ensures ServeOptions(s).plan == s.plan && ServeOptions(s).inbox.put == s.inbox.put
  {
    hide Reply, Resumed;
  }

  lemma NewServiceOutcome(s: State, ready: bool)
    ensures SameOutcome(s, ServePatch(s, ready)) && SameOutcome(s, ServeDelete(s))
    ensures ServePatch(s, ready).pc == ServeDelete(s).pc == s.pc
  {
    hide Reply;
  }

  lemma KillOutcome(s: State)
    ensures SameOutcome(s, HelperDies(s)) && HelperDies(s).pc == if s.pc == Finished then Finished else Dead
  {
  }

  lemma PrepareOutcome(s: State, ok: bool)
    requires s.committed ==> s.program.On? ==> s.program.prep == Idle
    ensures Prepare(s, ok).committed == s.committed
    ensures s.committed ==> Prepare(s, ok) == s
  {
    hide Reply;
  }

  lemma PutOutcome(s: State, written: bool)
    requires s.program.On? && s.program.updating ==> s.target == New
    ensures var t := ServePut(s, written);
      && t.pc == s.pc && t.target == s.target && (t.committed ==> s.committed || t.target == New)
      && (t.committed ==> t.pending == Complete || (s.committed && t.pending == s.pending))
  {
    hide Reply;
  }

  lemma StepAccepted(s: State, a: Action)
    requires Inv(s) && AcceptedInv(s)
    ensures AcceptedInv(Step(s, a))
  {
    assert PostInv(s) && ClosedInv(s);
    assert s.committed ==> s.program.On? ==> s.program.prep == Idle;
    assert s.program.On? && s.program.updating ==> s.target == New;
    hide Inv, PostInv, ClosedInv, Helper, HelperDies, Start, Crash, Admit, Finish, Write;
    hide Prepare, ServePost, ServeOptions, ServePatch, ServePut, ServeDelete;
    match a
    case HelperStep(ok, planOk, pendingOk) => HelperAccepted(s, ok, planOk, pendingOk);
    case PrepareStep(ok) => PrepareOutcome(s, ok);
    case PutArrives(written) => PutOutcome(s, written);
    case PostArrives => OldServiceOutcome(s);
    case OptionsArrives => OldServiceOutcome(s);
    case PatchArrives(ready) => NewServiceOutcome(s, ready);
    case DeleteArrives => NewServiceOutcome(s, false);
    case KillHelper => KillOutcome(s);
    case _ => ProgramOutcome(s, a);
  }

  lemma {:induction false} RunAccepted(s: State, actions: seq<Action>)
    requires Inv(s) && AcceptedInv(s)
    ensures Inv(Run(s, actions)) && AcceptedInv(Run(s, actions))
    decreases |actions|
  {
    hide Inv, AcceptedInv, Step;
    if |actions| > 0 {
      StepInv(s, actions[0]);
      StepAccepted(s, actions[0]);
      RunAccepted(Step(s, actions[0]), actions[1..]);
    }
  }

  lemma AfterAccepted(systemd: bool, writes: nat, actions: seq<Action>)
    ensures Inv(After(systemd, writes, actions)) && AcceptedInv(After(systemd, writes, actions))
  {
    InitInv(systemd, writes);
    hide Run;
    RunAccepted(Init(systemd, writes), actions);
  }

  lemma LastStep(m: State, last: bool, planOk: bool, pendingOk: bool)
    requires (m.pc.MarkComplete? || m.pc.MarkUnknown?) && m.target == New && m.pending == Complete
    ensures var t := Step(m, HelperStep(last, planOk, pendingOk));
      && t.committed == m.committed && t.pc == Finished
      && (Gated(true, t.pending, t.target) <==> m.pc.MarkUnknown? && pendingOk)
  {
    AcceptedMoves(m, last, planOk, pendingOk);
    hide Helper;
  }

  lemma LastTwoSteps(s: State, ok: bool, last: bool, planOk: bool, pendingOk: bool)
    requires s.pc == AwaitPut && s.target == New && s.pending == Complete
    ensures var t := Step(Step(s, HelperStep(ok, true, true)), HelperStep(last, planOk, pendingOk));
      && t.committed == s.committed && t.pc == Finished
      && (Gated(true, t.pending, t.target) <==> !(ok && s.answers.put == Granted) && pendingOk)
  {
    AcceptedMoves(s, ok, true, true);
    var m := Step(s, HelperStep(ok, true, true));
    assert m == Go(s, if ok && s.answers.put == Granted then MarkComplete else MarkUnknown);
    assert m.target == New && m.pending == Complete && m.committed == s.committed;
    hide Step, Go, Gated;
    LastStep(m, last, planOk, pendingOk);
  }

  /** What the helper's last two steps make of an acceptance that took place: the next
      start that can read the transaction is gated if and only if the helper did not
      hear the answer and its record of that was written. */
  lemma LostAcceptanceClosesNextStart(systemd: bool, writes: nat, actions: seq<Action>, ok: bool, last: bool,
                                      planOk: bool, pendingOk: bool)
    ensures var s := After(systemd, writes, actions);
            s.pc == AwaitPut && s.committed ==>
              var t := Step(Step(s, HelperStep(ok, true, true)), HelperStep(last, planOk, pendingOk));
              && t.committed && t.pc == Finished
              && (Gated(true, t.pending, t.target) <==> !(ok && s.answers.put == Granted) && pendingOk)
  {
    var s := After(systemd, writes, actions);
    AfterAccepted(systemd, writes, actions);
    hide Run, Inv, Init;
    if s.pc == AwaitPut && s.committed {
      LastTwoSteps(s, ok, last, planOk, pendingOk);
    }
    hide Helper, AcceptedInv;
  }

  /** An accepted program opens at every later start that can read the transaction. */
  predicate OpensAfter(s: State, more: seq<Action>) {
    var t := Run(s, more);
    !Gated(true, t.pending, t.target)
  }

  predicate Recorded(s: State) {
    s.committed && s.pending == Complete && !s.pc.AwaitPut? && !s.pc.MarkUnknown?
  }

  lemma RecordedStep(s: State, a: Action)
    requires Inv(s) && Recorded(s)
    ensures Recorded(Step(s, a))
  {
    assert PostInv(s) && ClosedInv(s);
    assert s.program.On? ==> s.program.prep == Idle;
    assert s.program.On? && s.program.updating ==> s.target == New;
    CommittedPlace(s);
    assert Step(s, a).committed by { StepGrows(s, a); }
    hide Inv, PostInv, ClosedInv, Helper, HelperDies, Start, Crash, Admit, Finish, Write;
    hide Prepare, ServePost, ServeOptions, ServePatch, ServePut, ServeDelete;
    match a
    case HelperStep(ok, planOk, pendingOk) => AcceptedMoves(s, ok, planOk, pendingOk);
    case PrepareStep(ok) => PrepareOutcome(s, ok);
    case PutArrives(written) => PutOutcome(s, written);
    case PostArrives => OldServiceOutcome(s);
    case OptionsArrives => OldServiceOutcome(s);
    case PatchArrives(ready) => NewServiceOutcome(s, ready);
    case DeleteArrives => NewServiceOutcome(s, false);
    case KillHelper => KillOutcome(s);
    case _ => ProgramOutcome(s, a);
  }

  lemma {:induction false} RecordedRun(s: State, more: seq<Action>)
    requires Inv(s) && Recorded(s)
    ensures Recorded(Run(s, more))
    decreases |more|
  {
    hide Inv, Recorded, Step;
    if |more| > 0 {
      StepInv(s, more[0]);
      RecordedStep(s, more[0]);
      RecordedRun(Step(s, more[0]), more[1..]);
    }
  }

  /** A helper that misses the answer can record that it does not know. */
  lemma MissedAnswer(s: State)
    requires s.pc.AwaitPut? || s.pc.MarkUnknown?
    ensures var t := if s.pc.AwaitPut? then Step(s, FAIL) else s;
      t.pc.MarkUnknown? && t.target == s.target
      && Step(t, OK).pending == AcceptanceUnknown && Step(t, OK).target == s.target
  {
    AcceptedMoves(s, false, true, true);
    var t := if s.pc.AwaitPut? then Step(s, FAIL) else s;
    assert t.pc.MarkUnknown? && t.target == s.target;
    AcceptedMoves(t, true, true, true);
    hide Helper;
  }

  lemma CanCloseAccepted(s: State)
    requires AcceptedInv(s) && s.committed && !Recorded(s)
    ensures exists more: seq<Action> :: !OpensAfter(s, more)
  {
    if s.pending != Complete {
      assert Run(s, []) == s;
      assert !OpensAfter(s, []);
    } else {
      MissedAnswer(s);
      hide Step, Run;
      if s.pc.MarkUnknown? {
        RunSingle(s, OK);
        assert !OpensAfter(s, [OK]);
      } else {
        RunSingle(Step(s, FAIL), OK);
        RunOne(s, FAIL, [OK]);
        assert !OpensAfter(s, [FAIL] + [OK]);
      }
    }
  }

  /** The exact condition, over all continuations: an accepted program opens at every
      later start that can read the transaction if and only if the transaction says
      complete and the helper is past waiting for the answer without having missed
      it. */
  lemma AcceptedStaysOpenIff(systemd: bool, writes: nat, actions: seq<Action>)
    ensures var s := After(systemd, writes, actions);
      s.committed ==>
        ((forall more: seq<Action> :: OpensAfter(s, more)) <==>
           s.pending == Complete && !s.pc.AwaitPut? && !s.pc.MarkUnknown?)
  {
    var s := After(systemd, writes, actions);
    AfterAccepted(systemd, writes, actions);
    hide Run, Inv, AcceptedInv, Init;
    if s.committed {
      if Recorded(s) {
        forall more: seq<Action> ensures OpensAfter(s, more) {
          RecordedRun(s, more);
        }
      } else {
        CanCloseAccepted(s);
      }
    }
  }
}
