/** The crash-tolerant self-update of cmd/server/update.go, cmd/server/main.go
    and internal/selfupdate/update.go as a state machine.  An external helper
    (`applyUpdate`), the program started from the target binary (its gate, its
    control server and its scheduler) and the disk take turns; every file
    operation may fail, every control reply may be lost or late, and helper and
    program may die between any two steps. */
module UpdateProtocol {

  datatype Option<+T> = None | Some(value: T)

  datatype Binary = Old | New

  datatype Phase =
    | Installing | BackupReady | Verifying | Accepting | AcceptanceUnknown
    | RecoveryRequired | Complete | Failed | RolledBack

  /** The phases under which a start of a changed binary stays closed. */
  predicate ActivePhase(p: Phase) {
    (p.BackupReady? || p.Verifying? || p.Accepting? || p.AcceptanceUnknown? || p.RecoveryRequired?)
  }

  datatype Verb = Post | Options | Patch | Put | Delete

  /** Control requests under way to the program. */
  datatype Mail = Mail(post: bool, options: bool, patch: bool, put: bool, delete: bool)

  const NO_MAIL := Mail(false, false, false, false, false)

  /** The replies the helper can still read (a DELETE or OPTIONS reply is never
      looked at). */
  datatype Answer = Unheard | Granted | Denied

  datatype Answers = Answers(post: Answer, patch: Answer, put: Answer)

  /** How far the control server is with a drain-and-prepare request. */
  datatype Prep = Idle | Draining | Drained | Paused | Saved | PlanSaved

  /** The program, holding the data lock while it is on. */
  datatype Program =
    | Off
    | On(updating: bool, draining: bool, requests: nat, scheduler: bool, paused: bool, prep: Prep)

  datatype Lock = Free | HeldByHelper | HeldByProgram

  /** The helper's next instruction. */
  datatype Pc =
    | Validate | AwaitPost | ReadPlan | StopUnit | SendResume | MarkStopFailed | LockOld
    | CopyOld | StatOld | ReplaceTarget | MarkVerifying | UndoReplace | Launch
    | Probe | AwaitPatch | MarkAccepting | SendPut | AwaitPut | MarkComplete | MarkUnknown
    | StopCandidate | StopCandidateUnit | LockNew | RestoreData | ReplaceBack | MarkRolledBack
    | Restart | MarkRecovery | MarkFailed | Finished | Dead

  datatype State = State(
    systemd: bool, pc: Pc, lock: Lock, program: Program,
    target: Binary, pending: Phase, plan: Phase, backup: Option<nat>,
    inbox: Mail, answers: Answers,
    writes: nat,        // public and maintenance writes present in the live data
    torn: bool,         // a restore failed half way
    accepted: nat,      // history: writes ever accepted
    committed: bool,    // history: the accept handler wrote "complete"
    exposed: bool,      // history: a program was started open while the snapshot could still be restored
    blind: bool)        // history: the new program could not read the transaction when it started

  function Init(systemd: bool, writes: nat): State {
    State(systemd, Validate, HeldByProgram, On(false, false, 0, true, false, Idle),
          Old, Installing, Installing, None, NO_MAIL, Answers(Unheard, Unheard, Unheard),
          writes, false, writes, false, false, false)
  }

  /** The data and its history are as they were. */
  predicate SameData(s: State, t: State) {
    && t.writes == s.writes && t.accepted == s.accepted && t.committed == s.committed
    && t.blind == s.blind && t.exposed == s.exposed
  }

  // ------------------------------------------------------------- the program

  /** pendingStartup: a start is gated when the transaction can be read, is in an
      active phase and the target is not the old binary. */
  predicate Gated(readable: bool, phase: Phase, target: Binary) {
    readable && ActivePhase(phase) && target == New
  }

  /** The snapshot the helper relies on is taken but the target is still old. */
  predicate SnapshotPending(s: State) {
    || (s.pc.ReadPlan? || s.pc.StopUnit? || s.pc.LockOld?)
    || (s.pc.AwaitPost? && s.answers.post == Granted)
  }

  /** The changed binary is in place and the snapshot may still be restored, or has
      been restored half way. */
  predicate RestoreAhead(s: State) {
    || s.torn
    || s.pc.Launch? || s.pc.Probe? || s.pc.AwaitPatch?
    || s.pc.StopCandidate? || s.pc.StopCandidateUnit? || s.pc.LockNew?
  }

  /** A start that opens a program behind a snapshot that still counts. */
  predicate Exposes(s: State, readable: bool) {
    if s.target == Old then SnapshotPending(s) else !readable && RestoreAhead(s)
  }

  function Start(s: State, readable: bool): State {
    if s.lock != Free || s.program != Off then s
    else
      var gated := Gated(readable, s.pending, s.target);
      s.(lock := HeldByProgram, program := On(gated, gated, 0, !gated, false, Idle),
         exposed := s.exposed || Exposes(s, readable),
         blind := s.blind || (s.target == New && !readable))
  }

  function Crash(s: State): (t: State)
    ensures t.plan == s.plan
    ensures SameData(s, t) && t.pc == s.pc && t.answers == s.answers && (t.inbox.put ==> s.inbox.put)
  {
    if s.program == Off then s else s.(program := Off, lock := Free, inbox := NO_MAIL)
  }

  function Admit(s: State): State {
    if s.program.On? && !s.program.draining then s.(program := s.program.(requests := s.program.requests + 1)) else s
  }

  function Finish(s: State): State {
    if s.program.On? && s.program.requests > 0 then s.(program := s.program.(requests := s.program.requests - 1)) else s
  }

  /** A request in flight or the scheduler changes the data. */
  function Write(s: State): State {
    if s.program.On? && (s.program.requests > 0 || s.program.scheduler)
    then s.(writes := s.writes + 1, accepted := s.accepted + 1)
    else s
  }

  function Reply(s: State, v: Verb, ok: bool): (t: State)
    ensures SameData(s, t)
    ensures t.program == s.program && t.target == s.target && t.pc == s.pc
    ensures t.inbox == s.inbox && t.pending == s.pending && t.plan == s.plan
  {
    match v
    case Post => s.(answers := s.answers.(post := if ok then Granted else Denied))
    case Patch => s.(answers := s.answers.(patch := if ok then Granted else Denied))
    case Put => s.(answers := s.answers.(put := if ok then Granted else Denied))
    case _ => s
  }

  /** POST: close the gate, or refuse when it is closed already. */
  function ServePost(s: State): State {
    if !s.program.On? || !s.inbox.post then s
    else
      var s1 := s.(inbox := s.inbox.(post := false));
      if s.program.draining then Reply(s1, Post, false)
      else s1.(program := s.program.(draining := true, prep := Draining))
  }

  /** The preparation failed: reopen the gate. The scheduler is started again only
      once it was known to be paused; one that was told to stop but was not seen
      to stop in time stays stopped. */
  function Reopen(s: State): State
    requires s.program.On?
  {
    Reply(s.(program := s.program.(draining := false, prep := Idle, paused := false,
                                   scheduler := !s.program.prep.Drained? && (s.program.scheduler || s.program.paused))),
          Post, false)
  }

  /** Manager.Prepare refuses a transaction that is not a fresh install of the
      binary in place. */
  predicate Refused(s: State)
    requires s.program.On?
  {
    s.program.prep.Paused? && (s.pending != Installing || s.target != Old)
  }

  /** A successful step of drain-and-prepare: wait for the requests, stop the
      scheduler, snapshot the data, save the plan, save the transaction. */
  function Advance(s: State): State
    requires s.program.On?
  {
    match s.program.prep
    case Idle => s
    case Draining => if s.program.requests == 0 then s.(program := s.program.(prep := Drained)) else s
    case Drained => s.(program := s.program.(scheduler := false, paused := true, prep := Paused))
    case Paused => s.(backup := Some(s.writes), program := s.program.(prep := Saved))
    case Saved => s.(plan := BackupReady, program := s.program.(prep := PlanSaved))
    case PlanSaved => Reply(s.(pending := BackupReady, program := s.program.(prep := Idle)), Post, true)
  }

  /** One step of drain-and-prepare; `ok` is whether that step succeeded. */
  function Prepare(s: State, ok: bool): State {
    if !s.program.On? || s.program.prep.Idle? then s
    else if !ok || Refused(s) then Reopen(s)
    else Advance(s)
  }

  /** The gate opens and a scheduler that was paused starts again. */
  function Resumed(s: State): (t: State)
    requires s.program.On?
    ensures SameData(s, t) && t.plan == s.plan && t.pending == s.pending && t.target == s.target
    ensures t.inbox == s.inbox && t.pc == s.pc
  {
    s.(program := s.program.(draining := false, paused := false,
                             scheduler := s.program.scheduler || s.program.paused))
  }

  /** OPTIONS: only the original program, with the original binary, reopens. */
  function ServeOptions(s: State): State {
    if !s.program.On? || !s.inbox.options || (!s.program.prep.Idle? && !s.program.prep.Draining?) then s
    else
      var s1 := s.(inbox := s.inbox.(options := false));
      if s.program.updating || s.target != Old then Reply(s1, Options, false)
      else Reply(Resumed(s1), Options, true)
  }

  function ServePatch(s: State, ready: bool): State {
    if !s.program.On? || !s.inbox.patch then s
    else Reply(s.(inbox := s.inbox.(patch := false)), Patch, s.program.updating && ready)
  }

  /** PUT: write "complete", and only then open the gate. */
  function ServePut(s: State, written: bool): State {
    if !s.program.On? || !s.inbox.put then s
    else
      var s1 := s.(inbox := s.inbox.(put := false));
      if !s.program.updating || !written then Reply(s1, Put, false)
      else Reply(s1.(pending := Complete, committed := true,
                     program := s.program.(updating := false, draining := false, scheduler := true)), Put, true)
  }

  function ServeDelete(s: State): State {
    if !s.program.On? || !s.inbox.delete then s
    else Reply(s.(inbox := s.inbox.(delete := false)), Delete, s.program.updating)
  }

  // -------------------------------------------------------------- the helper

  /** A control request leaves the helper; it is lost when no program listens. */
  function Send(s: State, v: Verb): (t: State)
    ensures t.plan == s.plan
    ensures SameData(s, t)
    ensures t.program == s.program && t.target == s.target && t.pc == s.pc
    ensures t.answers.patch == Granted ==> s.answers.patch == Granted
    ensures t.answers.post == Granted ==> s.answers.post == Granted
    ensures t.inbox.put ==> s.inbox.put || v == Put
  {
    var on := s.program.On?;
    match v
    case Post => s.(inbox := s.inbox.(post := on), answers := s.answers.(post := Unheard))
    case Options => s.(inbox := s.inbox.(options := on))
    case Patch => s.(inbox := s.inbox.(patch := on), answers := s.answers.(patch := Unheard))
    case Put => s.(inbox := s.inbox.(put := on), answers := s.answers.(put := Unheard))
    case Delete => s.(inbox := s.inbox.(delete := on))
  }

  /** saveUpdateResult: both writes may fail, and the helper does not look. */
  function Save(s: State, phase: Phase, planOk: bool, pendingOk: bool): (t: State)
    ensures SameData(s, t) && t.pc == s.pc
    ensures t.program == s.program && t.target == s.target && t.inbox == s.inbox && t.answers == s.answers
  {
    s.(plan := if planOk then phase else s.plan, pending := if pendingOk then phase else s.pending)
  }

  function Go(s: State, pc: Pc): (t: State)
    ensures t.plan == s.plan
    ensures SameData(s, t) && t.pc == pc
    ensures t.program == s.program && t.target == s.target && t.inbox == s.inbox && t.answers == s.answers
  {
    s.(pc := pc)
  }

  function Unlock(s: State): (t: State)
    ensures t.plan == s.plan
    ensures SameData(s, t) && t.pc == s.pc
    ensures t.program == s.program && t.target == s.target && t.inbox == s.inbox && t.answers == s.answers
  {
    s.(lock := if s.lock == HeldByHelper then Free else s.lock)
  }


  predicate Offline(s: State) { s.lock == Free && s.program == Off }

  /** applyUpdate up to the data lock: ask the old program to drain and back up. */
  function HelperDrain(s: State, ok: bool, planOk: bool, pendingOk: bool): State {
    match s.pc
    case Validate =>
      if ok && s.plan == Installing && s.target == Old then Go(Send(s, Post), AwaitPost) else Go(s, Finished)
    case AwaitPost => Go(s, if ok && s.answers.post == Granted then ReadPlan else MarkFailed)
    case ReadPlan =>
      if ok && s.plan == BackupReady && s.backup.Some? then Go(s, if s.systemd then StopUnit else LockOld)
      else Go(Send(s, Options), Finished)
    case StopUnit => if ok then Go(Crash(s), LockOld) else Go(s, SendResume)
    case SendResume => Go(Send(s, Options), MarkStopFailed)
    case MarkStopFailed => Go(Save(s, Failed, planOk, pendingOk), Finished)
    case LockOld => if ok && Offline(s) then Go(s.(lock := HeldByHelper), CopyOld) else Go(s, MarkFailed)
    case MarkFailed => Go(Save(s, Failed, planOk, pendingOk), Finished)
    case _ => s
  }

  /** applyUpdate under the data lock: exchange the binary. */
  function HelperSwap(s: State, ok: bool, pendingOk: bool): State {
    match s.pc
    case CopyOld => if ok then Go(s, StatOld) else Go(Unlock(s), MarkFailed)
    case StatOld => if ok then Go(s, ReplaceTarget) else Go(Unlock(s), MarkRecovery)
    case ReplaceTarget => if ok then Go(s.(target := New), MarkVerifying) else Go(Unlock(s), MarkFailed)
    case MarkVerifying =>
      if pendingOk then Go(Unlock(s.(pending := Verifying)), Launch) else Go(s, UndoReplace)
    case UndoReplace => Go(Unlock(if ok then s.(target := Old) else s), Finished)
    case _ => s
  }

  /** verifyUpdated and what follows it: probe, then open the gate. */
  function HelperVerify(s: State, ok: bool, planOk: bool, pendingOk: bool): State {
    match s.pc
    case Launch => Go(s, if ok then Probe else StopCandidate)
    case Probe => if ok then Go(Send(s, Patch), AwaitPatch) else Go(s, StopCandidate)
    case AwaitPatch => Go(s, if ok && s.answers.patch == Granted then MarkAccepting else Probe)
    case MarkAccepting => Go(Save(s, Accepting, planOk, pendingOk), SendPut)
    case SendPut => Go(Send(s, Put), AwaitPut)
    case AwaitPut => Go(s, if ok && s.answers.put == Granted then MarkComplete else MarkUnknown)
    case MarkComplete => Go(Save(s, Complete, planOk, pendingOk), Finished)
    case MarkUnknown => Go(Save(s, AcceptanceUnknown, planOk, pendingOk), Finished)
    case _ => s
  }

  /** The automatic rollback: stop the candidate, restore data and binary. */
  function HelperRollback(s: State, ok: bool, planOk: bool, pendingOk: bool): State {
    match s.pc
    case StopCandidate => Go(Send(s, Delete), StopCandidateUnit)
    case StopCandidateUnit =>
      Go(if s.systemd && ok && s.pending != Complete then Crash(s) else s, LockNew)
    case LockNew => if ok && Offline(s) then Go(s.(lock := HeldByHelper), RestoreData) else Go(s, MarkRecovery)
    case RestoreData =>
      if ok && s.backup.Some? then Go(s.(writes := s.backup.value, torn := false), ReplaceBack)
      else Go(Unlock(s.(torn := true)), MarkRecovery)
    case ReplaceBack => if ok then Go(s.(target := Old), MarkRolledBack) else Go(Unlock(s), MarkRecovery)
    case MarkRolledBack => Go(Unlock(Save(s, RolledBack, planOk, pendingOk)), Restart)
    case Restart => Go(s, if ok then Finished else MarkRecovery)
    case MarkRecovery => Go(Save(s, RecoveryRequired, planOk, pendingOk), Finished)
    case _ => s
  }

  /** The helper's next instruction. `ok` is its outcome; for a wait, whether the
      helper stayed to hear the answer. */
  function Helper(s: State, ok: bool, planOk: bool, pendingOk: bool): State {
    if s.pc.CopyOld? || s.pc.StatOld? || s.pc.ReplaceTarget? || s.pc.MarkVerifying? || s.pc.UndoReplace? then
      HelperSwap(s, ok, pendingOk)
    else if s.pc.Launch? || s.pc.Probe? || s.pc.AwaitPatch? || s.pc.MarkAccepting? || s.pc.SendPut?
            || s.pc.AwaitPut? || s.pc.MarkComplete? || s.pc.MarkUnknown? then
      HelperVerify(s, ok, planOk, pendingOk)
    else if s.pc.StopCandidate? || s.pc.StopCandidateUnit? || s.pc.LockNew? || s.pc.RestoreData?
            || s.pc.ReplaceBack? || s.pc.MarkRolledBack? || s.pc.Restart? || s.pc.MarkRecovery? then
      HelperRollback(s, ok, planOk, pendingOk)
    else HelperDrain(s, ok, planOk, pendingOk)
  }

  function HelperDies(s: State): State { if s.pc == Finished then s else Go(Unlock(s), Dead) }

  // -------------------------------------------------------------------- runs

  datatype Action =
    | StartProgram(readable: bool) | CrashProgram | AdmitRequest | FinishRequest | WriteData
    | PostArrives | PrepareStep(ok: bool) | OptionsArrives | PatchArrives(ready: bool)
    | PutArrives(written: bool) | DeleteArrives
    | HelperStep(ok: bool, planOk: bool, pendingOk: bool) | KillHelper

  function Step(s: State, a: Action): State {
    match a
    case StartProgram(readable) => Start(s, readable)
    case CrashProgram => Crash(s)
    case AdmitRequest => Admit(s)
    case FinishRequest => Finish(s)
    case WriteData => Write(s)
    case PostArrives => ServePost(s)
    case PrepareStep(ok) => Prepare(s, ok)
    case OptionsArrives => ServeOptions(s)
    case PatchArrives(ready) => ServePatch(s, ready)
    case PutArrives(written) => ServePut(s, written)
    case DeleteArrives => ServeDelete(s)
    case HelperStep(ok, planOk, pendingOk) => Helper(s, ok, planOk, pendingOk)
    case KillHelper => HelperDies(s)
  }

  function Run(s: State, actions: seq<Action>): State
    decreases |actions|
  {
    if |actions| == 0 then s else Run(Step(s, actions[0]), actions[1..])
  }

  // --------------------------------------------------------------- invariant

  /** Nothing can change the data: no program, or one drained, idle and paused. */
  predicate Quiet(p: Program) {
    p.On? ==> p.draining && p.requests == 0 && !p.scheduler && p.prep == Idle
  }

  /** What is known at each of the helper's instructions: whether it holds the
      data lock, which binary is in place, whether the program has confirmed the
      preparation, whether the transaction file still says so, whether the helper
      relies on the snapshot being exact, and whether the gate may be open. */
  datatype Facts = Facts(
    locked: bool, target: Option<Binary>, heard: bool, kept: bool, relying: bool, putSent: bool)

  function At(pc: Pc): Facts {
    match pc
    case Validate => Facts(false, Some(Old), false, false, false, false)
    case AwaitPost => Facts(false, Some(Old), false, false, false, false)
    case ReadPlan => Facts(false, Some(Old), true, true, true, false)
    case StopUnit => Facts(false, Some(Old), true, true, true, false)
    case LockOld => Facts(false, Some(Old), true, true, true, false)
    case SendResume => Facts(false, Some(Old), true, false, false, false)
    case MarkStopFailed => Facts(false, Some(Old), true, false, false, false)
    case MarkFailed => Facts(false, Some(Old), false, false, false, false)
    case CopyOld => Facts(true, Some(Old), true, true, true, false)
    case StatOld => Facts(true, Some(Old), true, true, true, false)
    case ReplaceTarget => Facts(true, Some(Old), true, true, true, false)
    case MarkVerifying => Facts(true, Some(New), true, true, true, false)
    case UndoReplace => Facts(true, Some(New), true, false, true, false)
    case Launch => Facts(false, Some(New), true, false, true, false)
    case Probe => Facts(false, Some(New), true, false, true, false)
    case AwaitPatch => Facts(false, Some(New), true, false, true, false)
    case MarkAccepting => Facts(false, Some(New), true, false, false, false)
    case SendPut => Facts(false, Some(New), true, false, false, false)
    case AwaitPut => Facts(false, Some(New), true, false, false, true)
    case MarkComplete => Facts(false, Some(New), true, false, false, true)
    case MarkUnknown => Facts(false, Some(New), true, false, false, true)
    case StopCandidate => Facts(false, Some(New), true, false, true, false)
    case StopCandidateUnit => Facts(false, Some(New), true, false, true, false)
    case LockNew => Facts(false, Some(New), true, false, true, false)
    case RestoreData => Facts(true, Some(New), true, false, true, false)
    case ReplaceBack => Facts(true, Some(New), true, false, false, false)
    case MarkRolledBack => Facts(true, Some(Old), true, false, false, false)
    case Restart => Facts(false, Some(Old), true, false, false, false)
    case MarkRecovery => Facts(false, None, true, false, false, false)
    case Finished => Facts(false, None, false, false, false, true)
    case Dead => Facts(false, None, false, false, false, true)
  }

  predicate LockInv(s: State) {
    && (s.lock == HeldByProgram <==> s.program.On?)
    && (s.lock == HeldByHelper <==> At(s.pc).locked)
    && (s.program == Off ==> s.inbox == NO_MAIL)
  }

  /** The prepare request is sent once and answered once. */
  predicate PostInv(s: State) {
    && (s.answers.post != Unheard ==> !s.inbox.post && (s.program.On? ==> s.program.prep == Idle))
    && (s.program.On? && s.program.prep != Idle ==> !s.inbox.post && s.target == Old && !s.program.updating)
    && (s.pc == Validate ==> !s.inbox.post && s.answers.post == Unheard && (s.program.On? ==> s.program.prep == Idle))
    && (At(s.pc).heard ==> s.answers.post == Granted)
    && (s.inbox.post ==> s.target == Old)
    && (s.inbox.options ==> s.answers.post != Unheard && (s.pc == MarkStopFailed || s.pc == Finished || s.pc == Dead))
    && (At(s.pc).kept || SnapshotPending(s) ==> s.pending == BackupReady)
    && (SnapshotPending(s) || (s.pc == AwaitPost && s.program.On? && s.program.prep.PlanSaved?) ==>
        s.plan == BackupReady)
  }

  /** A changed target stays in an active phase until the accept handler ran. */
  predicate ClosedInv(s: State) {
    && (At(s.pc).target.Some? ==> s.target == At(s.pc).target.value)
    && (s.target == New && !s.committed ==> ActivePhase(s.pending))
    && (s.pc == MarkComplete || s.answers.put == Granted ==> s.committed)
    && (s.committed || s.inbox.put ==> At(s.pc).putSent)
    && (s.committed ==> s.target == New)
    && (s.program.On? && s.program.updating ==> s.target == New)
  }

  /** While a restore lies ahead no start has gone unseen. */
  predicate Watched(s: State) {
    s.pc.Validate? || s.pc.AwaitPost? || At(s.pc).relying || s.torn
  }

  /** An open program on a changed binary was accepted, or could not see. */
  predicate GateInv(s: State) {
    && (Watched(s) && !s.exposed ==> !s.blind)
    && (s.program.On? ==>
      && (s.target == New && !s.committed && !s.blind ==> s.program.updating && Quiet(s.program))
      && (s.program.prep != Idle ==> s.program.draining)
      && ((s.program.prep.Drained? || s.program.prep.Paused? || s.program.prep.Saved? || s.program.prep.PlanSaved?)
            ==> s.program.requests == 0)
      && ((s.program.prep.Paused? || s.program.prep.Saved? || s.program.prep.PlanSaved?) ==> !s.program.scheduler))
  }

  /** The data is exactly what was accepted, or a half-done restore has left the
      exact snapshot behind. */
  predicate Intact(s: State) {
    if s.torn then s.backup == Some(s.accepted) else s.writes == s.accepted
  }

  /** While no start was exposed, the data is intact, and the helper relies on an
      exact snapshot. */
  predicate DataInv(s: State) {
    !s.exposed ==>
      && Intact(s)
      && (s.torn ==> s.target == New && !s.committed && !s.inbox.put
                         && (s.pc.MarkRecovery? || s.pc.Finished? || s.pc.Dead?))
      && (s.program.On? && (s.program.prep.Saved? || s.program.prep.PlanSaved?) ==> s.backup == Some(s.accepted))
      && (At(s.pc).relying || SnapshotPending(s) ==> s.backup == Some(s.accepted) && !s.torn)
      && (SnapshotPending(s) ==> Quiet(s.program))
  }

  predicate Inv(s: State) {
    LockInv(s) && PostInv(s) && ClosedInv(s) && GateInv(s) && DataInv(s)
  }

  lemma InitInv(systemd: bool, writes: nat)
    ensures Inv(Init(systemd, writes))
  {
  }

  lemma StartInv(s: State, readable: bool)
    requires Inv(s)
    ensures Inv(Start(s, readable))
  {
  }

  lemma CrashInv(s: State)
    requires Inv(s)
    ensures Inv(Crash(s))
  {
  }

  lemma AdmitInv(s: State)
    requires Inv(s)
    ensures Inv(Admit(s))
  {
  }

  lemma FinishInv(s: State)
    requires Inv(s)
    ensures Inv(Finish(s))
  {
  }

  lemma WriteInv(s: State)
    requires Inv(s)
    ensures Inv(Write(s))
  {
  }

  lemma ProgramInv(s: State, a: Action)
    requires Inv(s) && (a.StartProgram? || a.CrashProgram? || a.AdmitRequest? || a.FinishRequest? || a.WriteData?)
    ensures Inv(Step(s, a))
  {
    hide Inv, Start, Crash, Admit, Finish, Write;
    match a
    case StartProgram(readable) => StartInv(s, readable);
    case CrashProgram => CrashInv(s);
    case AdmitRequest => AdmitInv(s);
    case FinishRequest => FinishInv(s);
    case _ => WriteInv(s);
  }

  lemma ReopenInv(s: State)
    requires Inv(s) && s.program.On? && s.program.prep != Idle
    ensures Inv(Reopen(s))
  {
  }

  lemma PreparedInv(s: State)
    requires Inv(s) && s.program.On? && s.program.prep == PlanSaved && !Refused(s)
    ensures Inv(Advance(s))
  {
  }

  lemma SnapshotInv(s: State)
    requires Inv(s) && s.program.On? && s.program.prep == Paused && !Refused(s)
    ensures Inv(Advance(s))
  {
    assert Advance(s) == s.(backup := Some(s.writes), program := s.program.(prep := Saved));
  }

  lemma AdvanceInv(s: State)
    requires Inv(s) && s.program.On? && !Refused(s)
    requires s.program.prep == Draining || s.program.prep == Drained || s.program.prep == Saved
    ensures Inv(Advance(s))
  {
    assert Advance(s).(program := s.program, plan := s.plan) == s;
  }

  lemma PrepareInv(s: State, ok: bool)
    requires Inv(s)
    ensures Inv(Prepare(s, ok))
  {
    hide Inv, Reopen, Advance;
    if s.program.On? && s.program.prep != Idle {
      ReopenInv(s);
      if !Refused(s) {
        match s.program.prep
        case Paused => SnapshotInv(s);
        case PlanSaved => PreparedInv(s);
        case _ => AdvanceInv(s);
      }
    }
  }

  lemma AskInv(s: State)
    requires Inv(s) && s.pc == Validate
    ensures Inv(Go(Send(s, Post), AwaitPost))
  {
  }

  lemma ValidateInv(s: State, ok: bool, planOk: bool, pendingOk: bool)
    requires Inv(s) && s.pc == Validate
    ensures Inv(Helper(s, ok, planOk, pendingOk))
  {
    if ok && s.plan == Installing && s.target == Old {
      AskInv(s);
      hide Inv, Go, Send;
    } else {
      assert Helper(s, ok, planOk, pendingOk) == Go(s, Finished);
    }
  }

  lemma AwaitPostInv(s: State, ok: bool, planOk: bool, pendingOk: bool)
    requires Inv(s) && s.pc == AwaitPost
    ensures Inv(Helper(s, ok, planOk, pendingOk))
  {
    if ok && s.answers.post == Granted {
      assert Helper(s, ok, planOk, pendingOk) == Go(s, ReadPlan);
    } else {
      assert Helper(s, ok, planOk, pendingOk) == Go(s, MarkFailed);
    }
  }

  lemma PlanReadInv(s: State)
    requires Inv(s) && s.pc == ReadPlan && s.backup.Some?
    ensures Inv(Go(s, if s.systemd then StopUnit else LockOld))
  {
  }

  lemma PlanUnreadInv(s: State)
    requires Inv(s) && s.pc == ReadPlan
    ensures Inv(Go(Send(s, Options), Finished))
  {
  }

  lemma ReadPlanInv(s: State, ok: bool, planOk: bool, pendingOk: bool)
    requires Inv(s) && s.pc == ReadPlan
    ensures Inv(Helper(s, ok, planOk, pendingOk))
  {
    hide Inv, Go, Send;
    if ok && s.plan == BackupReady && s.backup.Some? {
      PlanReadInv(s);
    } else {
      PlanUnreadInv(s);
    }
  }

  lemma StopUnitInv(s: State, ok: bool, planOk: bool, pendingOk: bool)
    requires Inv(s) && s.pc == StopUnit
    ensures Inv(Helper(s, ok, planOk, pendingOk))
  {
    if ok {
      assert Helper(s, ok, planOk, pendingOk) == Go(Crash(s), LockOld);
    } else {
      assert Helper(s, ok, planOk, pendingOk) == Go(s, SendResume);
    }
  }

  lemma SendResumeInv(s: State, ok: bool, planOk: bool, pendingOk: bool)
    requires Inv(s) && s.pc == SendResume
    ensures Inv(Helper(s, ok, planOk, pendingOk))
  {
    assert Helper(s, ok, planOk, pendingOk) == Go(Send(s, Options), MarkStopFailed);
  }

  lemma MarkStopFailedInv(s: State, ok: bool, planOk: bool, pendingOk: bool)
    requires Inv(s) && s.pc == MarkStopFailed
    ensures Inv(Helper(s, ok, planOk, pendingOk))
  {
    assert Helper(s, ok, planOk, pendingOk) == Go(Save(s, Failed, planOk, pendingOk), Finished);
  }

  lemma LockOldInv(s: State, ok: bool, planOk: bool, pendingOk: bool)
    requires Inv(s) && s.pc == LockOld
    ensures Inv(Helper(s, ok, planOk, pendingOk))
  {
    if ok && Offline(s) {
      assert Helper(s, ok, planOk, pendingOk) == Go(s.(lock := HeldByHelper), CopyOld);
    } else {
      assert Helper(s, ok, planOk, pendingOk) == Go(s, MarkFailed);
    }
  }

  lemma MarkFailedInv(s: State, ok: bool, planOk: bool, pendingOk: bool)
    requires Inv(s) && s.pc == MarkFailed
    ensures Inv(Helper(s, ok, planOk, pendingOk))
  {
    assert Helper(s, ok, planOk, pendingOk) == Go(Save(s, Failed, planOk, pendingOk), Finished);
  }

  lemma CopyOldInv(s: State, ok: bool, planOk: bool, pendingOk: bool)
    requires Inv(s) && s.pc == CopyOld
    ensures Inv(Helper(s, ok, planOk, pendingOk))
  {
  }

  lemma StatOldInv(s: State, ok: bool, planOk: bool, pendingOk: bool)
    requires Inv(s) && s.pc == StatOld
    ensures Inv(Helper(s, ok, planOk, pendingOk))
  {
  }

  lemma ReplaceTargetInv(s: State, ok: bool, planOk: bool, pendingOk: bool)
    requires Inv(s) && s.pc == ReplaceTarget
    ensures Inv(Helper(s, ok, planOk, pendingOk))
  {
  }

  lemma MarkVerifyingInv(s: State, ok: bool, planOk: bool, pendingOk: bool)
    requires Inv(s) && s.pc == MarkVerifying
    ensures Inv(Helper(s, ok, planOk, pendingOk))
  {
  }

  lemma UndoReplaceInv(s: State, ok: bool, planOk: bool, pendingOk: bool)
    requires Inv(s) && s.pc == UndoReplace
    ensures Inv(Helper(s, ok, planOk, pendingOk))
  {
  }

  lemma LaunchInv(s: State, ok: bool, planOk: bool, pendingOk: bool)
    requires Inv(s) && s.pc == Launch
    ensures Inv(Helper(s, ok, planOk, pendingOk))
  {
  }

  lemma ProbeInv(s: State, ok: bool, planOk: bool, pendingOk: bool)
    requires Inv(s) && s.pc == Probe
    ensures Inv(Helper(s, ok, planOk, pendingOk))
  {
  }

  lemma AwaitPatchInv(s: State, ok: bool, planOk: bool, pendingOk: bool)
    requires Inv(s) && s.pc == AwaitPatch
    ensures Inv(Helper(s, ok, planOk, pendingOk))
  {
  }

  lemma MarkAcceptingInv(s: State, ok: bool, planOk: bool, pendingOk: bool)
    requires Inv(s) && s.pc == MarkAccepting
    ensures Inv(Helper(s, ok, planOk, pendingOk))
  {
  }

  lemma SendPutInv(s: State, ok: bool, planOk: bool, pendingOk: bool)
    requires Inv(s) && s.pc == SendPut
    ensures Inv(Helper(s, ok, planOk, pendingOk))
  {
  }

  lemma AwaitPutInv(s: State, ok: bool, planOk: bool, pendingOk: bool)
    requires Inv(s) && s.pc == AwaitPut
    ensures Inv(Helper(s, ok, planOk, pendingOk))
  {
    if ok && s.answers.put == Granted {
      assert Helper(s, ok, planOk, pendingOk) == Go(s, MarkComplete);
    } else {
      assert Helper(s, ok, planOk, pendingOk) == Go(s, MarkUnknown);
    }
  }

  lemma MarkCompleteInv(s: State, ok: bool, planOk: bool, pendingOk: bool)
    requires Inv(s) && s.pc == MarkComplete
    ensures Inv(Helper(s, ok, planOk, pendingOk))
  {
    assert Helper(s, ok, planOk, pendingOk) == Go(Save(s, Complete, planOk, pendingOk), Finished);
  }

  lemma MarkUnknownInv(s: State, ok: bool, planOk: bool, pendingOk: bool)
    requires Inv(s) && s.pc == MarkUnknown
    ensures Inv(Helper(s, ok, planOk, pendingOk))
  {
    assert Helper(s, ok, planOk, pendingOk) == Go(Save(s, AcceptanceUnknown, planOk, pendingOk), Finished);
  }

  lemma StopCandidateInv(s: State, ok: bool, planOk: bool, pendingOk: bool)
    requires Inv(s) && s.pc == StopCandidate
    ensures Inv(Helper(s, ok, planOk, pendingOk))
  {
  }

  lemma StopCandidateUnitInv(s: State, ok: bool, planOk: bool, pendingOk: bool)
    requires Inv(s) && s.pc == StopCandidateUnit
    ensures Inv(Helper(s, ok, planOk, pendingOk))
  {
  }

  lemma LockNewInv(s: State, ok: bool, planOk: bool, pendingOk: bool)
    requires Inv(s) && s.pc == LockNew
    ensures Inv(Helper(s, ok, planOk, pendingOk))
  {
    if ok && Offline(s) {
      assert Helper(s, ok, planOk, pendingOk) == Go(s.(lock := HeldByHelper), RestoreData);
    } else {
      assert Helper(s, ok, planOk, pendingOk) == Go(s, MarkRecovery);
    }
  }

  lemma RestoreDataInv(s: State, ok: bool, planOk: bool, pendingOk: bool)
    requires Inv(s) && s.pc == RestoreData
    ensures Inv(Helper(s, ok, planOk, pendingOk))
  {
    if ok && s.backup.Some? {
      assert Helper(s, ok, planOk, pendingOk) == Go(s.(writes := s.backup.value, torn := false), ReplaceBack);
    } else {
      assert Helper(s, ok, planOk, pendingOk) == Go(Unlock(s.(torn := true)), MarkRecovery);
    }
  }

  lemma BinaryBackInv(s: State)
    requires Inv(s) && s.pc == ReplaceBack
    ensures Inv(Go(s.(target := Old), MarkRolledBack)) && Inv(Go(Unlock(s), MarkRecovery))
  {
  }

  lemma ReplaceBackInv(s: State, ok: bool, planOk: bool, pendingOk: bool)
    requires Inv(s) && s.pc == ReplaceBack
    ensures Inv(Helper(s, ok, planOk, pendingOk))
  {
    BinaryBackInv(s);
    hide Inv, Go, Unlock;
  }

  lemma MarkRolledBackInv(s: State, ok: bool, planOk: bool, pendingOk: bool)
    requires Inv(s) && s.pc == MarkRolledBack
    ensures Inv(Helper(s, ok, planOk, pendingOk))
  {
    assert Helper(s, ok, planOk, pendingOk) == Go(Unlock(Save(s, RolledBack, planOk, pendingOk)), Restart);
  }

  lemma RestartInv(s: State, ok: bool, planOk: bool, pendingOk: bool)
    requires Inv(s) && s.pc == Restart
    ensures Inv(Helper(s, ok, planOk, pendingOk))
  {
    assert Helper(s, ok, planOk, pendingOk) == Go(s, if ok then Finished else MarkRecovery);
  }

  lemma MarkRecoveryInv(s: State, ok: bool, planOk: bool, pendingOk: bool)
    requires Inv(s) && s.pc == MarkRecovery
    ensures Inv(Helper(s, ok, planOk, pendingOk))
  {
    assert Helper(s, ok, planOk, pendingOk) == Go(Save(s, RecoveryRequired, planOk, pendingOk), Finished);
  }

  lemma NothingLeft(s: State, ok: bool, planOk: bool, pendingOk: bool)
    requires s.pc == Finished || s.pc == Dead
    ensures Helper(s, ok, planOk, pendingOk) == s
  {
  }

  lemma HelperInv(s: State, ok: bool, planOk: bool, pendingOk: bool)
    requires Inv(s)
    ensures Inv(Helper(s, ok, planOk, pendingOk))
  {
    hide Inv, Helper;
    match s.pc
    case Validate => ValidateInv(s, ok, planOk, pendingOk);
    case AwaitPost => AwaitPostInv(s, ok, planOk, pendingOk);
    case ReadPlan => ReadPlanInv(s, ok, planOk, pendingOk);
    case StopUnit => StopUnitInv(s, ok, planOk, pendingOk);
    case SendResume => SendResumeInv(s, ok, planOk, pendingOk);
    case MarkStopFailed => MarkStopFailedInv(s, ok, planOk, pendingOk);
    case LockOld => LockOldInv(s, ok, planOk, pendingOk);
    case MarkFailed => MarkFailedInv(s, ok, planOk, pendingOk);
    case CopyOld => CopyOldInv(s, ok, planOk, pendingOk);
    case StatOld => StatOldInv(s, ok, planOk, pendingOk);
    case ReplaceTarget => ReplaceTargetInv(s, ok, planOk, pendingOk);
    case MarkVerifying => MarkVerifyingInv(s, ok, planOk, pendingOk);
    case UndoReplace => UndoReplaceInv(s, ok, planOk, pendingOk);
    case Launch => LaunchInv(s, ok, planOk, pendingOk);
    case Probe => ProbeInv(s, ok, planOk, pendingOk);
    case AwaitPatch => AwaitPatchInv(s, ok, planOk, pendingOk);
    case MarkAccepting => MarkAcceptingInv(s, ok, planOk, pendingOk);
    case SendPut => SendPutInv(s, ok, planOk, pendingOk);
    case AwaitPut => AwaitPutInv(s, ok, planOk, pendingOk);
    case MarkComplete => MarkCompleteInv(s, ok, planOk, pendingOk);
    case MarkUnknown => MarkUnknownInv(s, ok, planOk, pendingOk);
    case StopCandidate => StopCandidateInv(s, ok, planOk, pendingOk);
    case StopCandidateUnit => StopCandidateUnitInv(s, ok, planOk, pendingOk);
    case LockNew => LockNewInv(s, ok, planOk, pendingOk);
    case RestoreData => RestoreDataInv(s, ok, planOk, pendingOk);
    case ReplaceBack => ReplaceBackInv(s, ok, planOk, pendingOk);
    case MarkRolledBack => MarkRolledBackInv(s, ok, planOk, pendingOk);
    case Restart => RestartInv(s, ok, planOk, pendingOk);
    case MarkRecovery => MarkRecoveryInv(s, ok, planOk, pendingOk);
    case _ => NothingLeft(s, ok, planOk, pendingOk);
  }

  lemma ServePostInv(s: State)
    requires Inv(s)
    ensures Inv(ServePost(s))
  {
    if s.program.On? && s.inbox.post {
      var s1 := s.(inbox := s.inbox.(post := false));
      if s.program.draining {
        assert ServePost(s) == Reply(s1, Post, false);
      } else {
        assert ServePost(s) == s1.(program := s.program.(draining := true, prep := Draining));
      }
    } else {
      assert ServePost(s) == s;
    }
  }

  lemma ResumeInv(s: State)
    requires Inv(s) && s.program.On? && s.inbox.options && !s.program.updating && s.target == Old
    ensures Inv(ServeOptions(s))
  {
    var s1 := s.(inbox := s.inbox.(options := false));
    assert ServeOptions(s) == s1.(program := s.program.(draining := false, paused := false,
                                                        scheduler := s.program.scheduler || s.program.paused));
  }

  lemma ServeOptionsInv(s: State)
    requires Inv(s)
    ensures Inv(ServeOptions(s))
  {
    if s.program.On? && s.inbox.options {
      if s.program.updating || s.target != Old {
        assert ServeOptions(s) == s.(inbox := s.inbox.(options := false));
      } else {
        ResumeInv(s);
      }
    } else {
      assert ServeOptions(s) == s;
    }
  }

  lemma ServePatchInv(s: State, ready: bool)
    requires Inv(s)
    ensures Inv(ServePatch(s, ready))
  {
    if s.program.On? && s.inbox.patch {
      assert ServePatch(s, ready) == Reply(s.(inbox := s.inbox.(patch := false)), Patch, s.program.updating && ready);
    } else {
      assert ServePatch(s, ready) == s;
    }
  }

  lemma ServePutInv(s: State, written: bool)
    requires Inv(s)
    ensures Inv(ServePut(s, written))
  {
  }

  lemma ServeDeleteInv(s: State)
    requires Inv(s)
    ensures Inv(ServeDelete(s))
  {
  }

  lemma StepInv(s: State, a: Action)
    requires Inv(s)
    ensures Inv(Step(s, a))
  {
    hide Inv, ServePost, Prepare, ServeOptions, ServePatch, ServePut, ServeDelete, Helper, HelperDies;
    match a
    case PostArrives => ServePostInv(s);
    case PrepareStep(ok) => PrepareInv(s, ok);
    case OptionsArrives => ServeOptionsInv(s);
    case PatchArrives(ready) => ServePatchInv(s, ready);
    case PutArrives(written) => ServePutInv(s, written);
    case DeleteArrives => ServeDeleteInv(s);
    case HelperStep(ok, planOk, pendingOk) => HelperInv(s, ok, planOk, pendingOk);
    case KillHelper => KillInv(s);
    case _ => ProgramInv(s, a);
  }

  lemma KillInv(s: State)
    requires Inv(s)
    ensures Inv(HelperDies(s))
  {
    if s.pc != Finished {
      assert HelperDies(s) == s.(pc := Dead, lock := if At(s.pc).locked then Free else s.lock);
    }
  }

  lemma {:induction false} RunInv(s: State, actions: seq<Action>)
    requires Inv(s)
    ensures Inv(Run(s, actions))
    decreases |actions|
  {
    hide Inv, Step;
    if |actions| > 0 {
      StepInv(s, actions[0]);
      RunInv(Step(s, actions[0]), actions[1..]);
    }
  }
}
