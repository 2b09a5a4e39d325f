/** The drain gate of cmd/server/reuse.go: requests are counted in and out under a
    mutex, a drain closes the gate and waits for the count to reach zero on a
    channel that the last request closes, and a failed wait or a resume reopens
    the gate.  Channels are identified by their position in `closed`. */
module DrainGate {

  datatype Option<+T> = None | Some(value: T)

  /** The gate's own fields. `closed[c]` is whether channel c has been closed. */
  datatype Gate = Gate(active: nat, draining: bool, idle: Option<nat>, closed: seq<bool>)

  /** `&drainGate{draining: updating}`: no channel yet. */
  function NewGate(draining: bool): Gate { Gate(0, draining, None, []) }

  function Entered(g: Gate): Gate { if g.draining then g else g.(active := g.active + 1) }

  /** Whether `close(idle)` is legal: closing nil or a closed channel panics. */
  predicate CanClose(g: Gate) {
    g.idle.Some? && g.idle.value < |g.closed| && !g.closed[g.idle.value]
  }

  /** Whether the departing request would close the channel. */
  predicate Last(g: Gate) { g.draining && g.active == 1 }

  predicate CanExit(g: Gate) { g.active > 0 && (Last(g) ==> CanClose(g)) }

  function Exited(g: Gate): Gate
    requires CanExit(g)
  {
    g.(active := g.active - 1, closed := if Last(g) then g.closed[g.idle.value := true] else g.closed)
  }

  /** The locked first half of `drain`, when the gate is not draining yet. */
  function Closing(g: Gate): Gate {
    g.(draining := true, idle := Some(|g.closed|), closed := g.closed + [g.active == 0])
  }

  /** `resume`, and the locked second half of a `drain` that failed. */
  function Open(g: Gate): Gate { g.(draining := false) }

  // ------------------------------------------------------------ the gate object

  class GateObject {
    var active: nat
    var draining: bool
    var idle: Option<nat>
    var closed: seq<bool>

    ghost function View(): Gate
      reads this
    {
      Gate(active, draining, idle, closed)
    }

    constructor (updating: bool)
      ensures View() == NewGate(updating)
    {
      active, draining, idle, closed := 0, updating, None, [];
    }

    /** `wrap`, before the handler: refuse with 503 or count the request in. */
    method Enter() returns (admitted: bool)
      modifies this
      ensures admitted == !old(draining) && View() == Entered(old(View()))
    {
      if draining {
        return false;
      }
      active := active + 1;
      admitted := true;
    }

    method CloseIdle()
      requires CanClose(View())
      modifies this`closed
      ensures closed == old(closed)[idle.value := true]
    {
      closed := closed[idle.value := true];
    }

    /** `wrap`, deferred: count the request out; the last one closes the channel. */
    method Exit()
      requires CanExit(View())
      modifies this
      ensures View() == Exited(old(View()))
    {
      active := active - 1;
      if draining && active == 0 {
        CloseIdle();
      }
    }

    /** `drain` up to the wait: refused while draining, otherwise a fresh channel,
        closed at once when nothing is active. */
    method BeginDrain() returns (channel: Option<nat>)
      modifies this
      ensures old(draining) ==> channel == None && View() == old(View())
      ensures !old(draining) ==> channel == Some(|old(closed)|) && View() == Closing(old(View()))
    {
      if draining {
        return None;
      }
      draining := true;
      idle, closed := Some(|closed|), closed + [false];
      channel := idle;
      if active == 0 {
        CloseIdle();
      }
    }

    /** `drain` after the wait. */
    method EndDrain(failed: bool)
      modifies this
      ensures View() == if failed then Open(old(View())) else old(View())
    {
      if failed {
        draining := false;
      }
    }

    method Resume()
      modifies this
      ensures View() == Open(old(View()))
    {
      draining := false;
    }
  }

  // -------------------------------------------------------------------- runs

  /** A call of `drain` that got past the first lock. */
  datatype Drain = Waiting(channel: nat) | Failing | Succeeded | Failed

  predicate Pending(d: Drain) { d.Waiting? || d.Failing? }

  /** The gate with the requests whose handlers are running, the drains that were
      started, whether a drain succeeded with no resume since, and whether an
      illegal close happened. */
  datatype World = World(gate: Gate, handlers: set<nat>, drains: seq<Drain>, sealed: bool, panicked: bool)

  function Start(updating: bool): World { World(NewGate(updating), {}, [], false, false) }

  datatype Action =
    | Enter(request: nat) | Exit(request: nat) | BeginDrain
    | Hear(drain: nat)     // the channel is closed and the context is alive
    | GiveUp(drain: nat)   // timeout or cancelled context
    | Reopen(drain: nat)   // the failed drain takes the lock again
    | Resume

  function Step(w: World, a: Action): World {
    match a
    case Enter(r) =>
      if r in w.handlers then w
      else w.(gate := Entered(w.gate), handlers := if w.gate.draining then w.handlers else w.handlers + {r})
    case Exit(r) =>
      if r !in w.handlers then w
      else if !CanExit(w.gate) then w.(panicked := true)
      else w.(gate := Exited(w.gate), handlers := w.handlers - {r})
    case BeginDrain =>
      if w.gate.draining then w
      else w.(gate := Closing(w.gate), drains := w.drains + [Waiting(|w.gate.closed|)])
    case Hear(d) =>
      if d < |w.drains| && w.drains[d].Waiting? && w.drains[d].channel < |w.gate.closed|
          && w.gate.closed[w.drains[d].channel]
      then w.(drains := w.drains[d := Succeeded], sealed := true) else w
    case GiveUp(d) =>
      if d < |w.drains| && w.drains[d].Waiting? then w.(drains := w.drains[d := Failing]) else w
    case Reopen(d) =>
      if d < |w.drains| && w.drains[d].Failing? then w.(drains := w.drains[d := Failed], gate := Open(w.gate)) else w
    case Resume => w.(gate := Open(w.gate), sealed := false)
  }

  function Run(w: World, actions: seq<Action>): World
    decreases |actions|
  {
    if |actions| == 0 then w else Run(Step(w, actions[0]), actions[1..])
  }

  predicate Quiescent(w: World) { forall d :: 0 <= d < |w.drains| ==> !Pending(w.drains[d]) }

  /** Control issues resumes one after the other: no resume while a drain is under way. */
  predicate Sequential(w: World, actions: seq<Action>)
    decreases |actions|
  {
    |actions| == 0
    || ((actions[0] == Resume ==> Quiescent(w)) && Sequential(Step(w, actions[0]), actions[1..]))
  }

  // --------------------------------------------------------------- invariants

  /** Holds in every run: the counter counts the running handlers, the current
      channel is closed exactly when a drain found or made the gate idle, and no
      close was illegal. */
  predicate Inv(w: World) {
    && w.gate.active == |w.handlers|
    && !w.panicked
    && (w.gate.idle.Some? ==> w.gate.idle.value == |w.gate.closed| - 1)
    && (w.gate.idle.None? ==> |w.gate.closed| == 0)
    && (w.gate.draining && w.gate.active > 0 ==> CanClose(w.gate))
    && (w.gate.draining && w.gate.active == 0 && w.gate.idle.Some? ==> w.gate.closed[w.gate.idle.value])
  }

  /** Holds in every sequential run: only the latest drain can be under way, it
      keeps the gate closed, and a success keeps it closed and empty. */
  predicate Orderly(w: World) {
    && (forall d :: 0 <= d < |w.drains| - 1 ==> !Pending(w.drains[d]))
    && (|w.drains| > 0 && Pending(w.drains[|w.drains| - 1]) ==>
          && w.gate.draining && !w.sealed
          && (w.drains[|w.drains| - 1].Waiting? ==> w.gate.idle == Some(w.drains[|w.drains| - 1].channel)))
    && (w.sealed ==> w.gate.draining && w.gate.active == 0)
  }

  lemma RemoveOne(handlers: set<nat>, r: nat)
    requires r in handlers
    ensures |handlers - {r}| == |handlers| - 1
  {
  }

  lemma StepInv(w: World, a: Action)
    requires Inv(w)
    ensures Inv(Step(w, a))
  {
    match a
    case Exit(r) =>
      if r in w.handlers {
        RemoveOne(w.handlers, r);
      }
    case _ =>
  }

  lemma StepOrderly(w: World, a: Action)
    requires Inv(w) && Orderly(w) && (a == Resume ==> Quiescent(w))
    ensures Orderly(Step(w, a))
  {
  }

  /** Every interleaving, overlapping resumes included: `active` is the number of
      running handlers, no channel is closed twice and nil is never closed. */
  lemma {:induction false} CountsAndClosesRight(w: World, actions: seq<Action>)
    requires Inv(w)
    ensures Inv(Run(w, actions))
    decreases |actions|
  {
    hide Inv, Step;
    if |actions| > 0 {
      StepInv(w, actions[0]);
      CountsAndClosesRight(Step(w, actions[0]), actions[1..]);
    }
  }

  /** In the class: a gate that has counted its handlers right can always let the
      next one out. */
  lemma ExitIsLegal(w: World, r: nat)
    requires Inv(w) && r in w.handlers
    ensures CanExit(w.gate)
  {
    RemoveOne(w.handlers, r);
  }

  lemma {:induction false} SequentialRun(w: World, actions: seq<Action>)
    requires Inv(w) && Orderly(w) && Sequential(w, actions)
    ensures Inv(Run(w, actions)) && Orderly(Run(w, actions))
    decreases |actions|
  {
    hide Inv, Orderly, Step;
    if |actions| > 0 {
      StepInv(w, actions[0]);
      StepOrderly(w, actions[0]);
      SequentialRun(Step(w, actions[0]), actions[1..]);
    }
  }

  /** A successful drain means no request is being served and none is admitted
      until the next resume. */
  lemma SuccessfulDrainSeals(updating: bool, actions: seq<Action>, r: nat)
    requires Sequential(Start(updating), actions)
    ensures var w := Run(Start(updating), actions);
            w.sealed ==> w.gate.active == 0 && w.handlers == {} && Step(w, Enter(r)) == w && Quiescent(w)
  {
    SequentialRun(Start(updating), actions);
    hide Run;
    var w := Run(Start(updating), actions);
    if w.sealed {
      assert |w.handlers| == 0;
    }
  }

  /** A failed drain leaves the gate open for the next request, whatever else
      happened. */
  lemma FailedDrainOpens(w: World, d: nat, r: nat)
    requires Inv(w) && d < |w.drains| && w.drains[d].Failing? && r !in w.handlers
    ensures r in Step(Step(w, Reopen(d)), Enter(r)).handlers
  {
  }

  /** A resume opens the gate for the next request. */
  lemma ResumeOpens(w: World, r: nat)
    requires Inv(w) && r !in w.handlers
    ensures r in Step(Step(w, Resume), Enter(r)).handlers
  {
  }

  /** A drain that waits succeeds as soon as no request is running: in every sequential
      run, the last one out lets it go on. */
  lemma DrainSucceedsWhenIdle(updating: bool, actions: seq<Action>)
    requires Sequential(Start(updating), actions)
    ensures var w := Run(Start(updating), actions);
            |w.drains| > 0 && w.drains[|w.drains| - 1].Waiting? ==>
              (w.handlers == {} <==> Step(w, Hear(|w.drains| - 1)).drains[|w.drains| - 1].Succeeded?)
  {
    SequentialRun(Start(updating), actions);
    hide Run;
    var w := Run(Start(updating), actions);
    if |w.drains| > 0 && w.drains[|w.drains| - 1].Waiting? {
      assert w.handlers == {} <==> w.gate.active == 0;
      assert w.gate.active > 0 ==> CanClose(w.gate);
    }
  }

  /** A request is turned away exactly while the gate is closed, and served otherwise. */
  lemma AdmittedIffOpen(w: World, r: nat)
    requires Inv(w) && r !in w.handlers
    ensures r in Step(w, Enter(r)).handlers <==> !w.gate.draining
    ensures Step(w, Enter(r)).gate.active == |Step(w, Enter(r)).handlers|
  {
  }

  /** A program started for an update serves nobody before a resume, whatever is
      drained meanwhile; any other serves from the start. */
  lemma UpdatingStartsClosed(actions: seq<Action>, r: nat)
    requires Resume !in actions
    ensures Step(Run(Start(true), actions), Enter(r)).handlers == {}
    ensures r in Step(Start(false), Enter(r)).handlers
  {
    NobodyEnters(Start(true), actions + [Enter(r)]);
    RunOn(Start(true), actions, Enter(r));
  }

  lemma {:induction false} RunOn(w: World, actions: seq<Action>, a: Action)
    ensures Run(w, actions + [a]) == Step(Run(w, actions), a)
    decreases |actions|
  {
    if |actions| == 0 {
      assert actions + [a] == [a] && [a][1..] == [];
    } else {
      assert (actions + [a])[0] == actions[0] && (actions + [a])[1..] == actions[1..] + [a];
      RunOn(Step(w, actions[0]), actions[1..], a);
    }
  }

  lemma {:induction false} NobodyEnters(w: World, actions: seq<Action>)
    requires Resume !in actions && w.gate.draining && w.handlers == {} && w.drains == []
    ensures Run(w, actions).handlers == {}
    decreases |actions|
  {
    if |actions| > 0 {
      var a := actions[0];
      assert a in actions;
      NobodyEnters(Step(w, a), actions[1..]);
    }
  }

  // ------------------------------------------------------- overlapping resumes

  /** Nothing can open a sealed gate but a drain still under way or a resume. */
  lemma {:induction false} SealHolds(w: World, actions: seq<Action>)
    requires Quiescent(w) && w.gate.draining && Resume !in actions
    ensures Run(w, actions).gate.draining && Quiescent(Run(w, actions))
    decreases |actions|
  {
    if |actions| > 0 {
      var a := actions[0];
      assert a in actions;
      assert Step(w, a).drains == w.drains && Step(w, a).gate.draining;
      SealHolds(Step(w, a), actions[1..]);
    }
  }

  /** Exactly when a sealed gate stays sealed: when no earlier drain is under way. */
  lemma SealHoldsIff(w: World)
    requires w.gate.draining
    ensures Quiescent(w) <==> (forall actions: seq<Action> :: Resume !in actions ==> Run(w, actions).gate.draining)
  {
    if Quiescent(w) {
      forall actions: seq<Action> | Resume !in actions
        ensures Run(w, actions).gate.draining
      {
        SealHolds(w, actions);
      }
    } else {
      var d :| 0 <= d < |w.drains| && Pending(w.drains[d]);
      var u := Step(w, GiveUp(d));
      assert u.drains[d].Failing?;
      var actions := [GiveUp(d), Reopen(d)];
      assert actions[1..] == [Reopen(d)] && [Reopen(d)][1..] == [];
      assert Run(w, actions) == Run(u, [Reopen(d)]) == Step(u, Reopen(d));
      assert Resume !in actions && !Run(w, actions).gate.draining;
    }
  }

  /** A resume that overlaps a drain does lead there: the second drain succeeds,
      then the first one times out and reopens the gate. */
  lemma OverlappingResumeBreaksSeal()
    ensures exists actions: seq<Action> :: var w := Run(Start(false), actions); w.sealed && !w.gate.draining
  {
    var w0 := Start(false);
    var w1 := Step(w0, Enter(0));
    var w2 := Step(w1, BeginDrain);
    var w3 := Step(w2, Resume);
    var w4 := Step(w3, Exit(0));
    assert w4 == World(Gate(0, false, Some(0), [false]), {}, [Waiting(0)], false, false);
    var w5 := Step(w4, BeginDrain);
    var w6 := Step(w5, Hear(1));
    var w7 := Step(w6, GiveUp(0));
    var w8 := Step(w7, Reopen(0));
    assert w8.sealed && !w8.gate.draining;
    var tail := [BeginDrain, Hear(1), GiveUp(0), Reopen(0)];
    var actions := [Enter(0), BeginDrain, Resume, Exit(0)] + tail;
    assert Run(w4, tail) == w8 by { Four(w4, tail); }
    assert Run(w0, actions) == Run(w4, tail) by { Four(w0, actions); assert actions[4..] == tail; }
  }

  lemma Four(w: World, actions: seq<Action>)
    requires |actions| >= 4
    ensures Run(w, actions) ==
            Run(Step(Step(Step(Step(w, actions[0]), actions[1]), actions[2]), actions[3]), actions[4..])
  {
    hide Step;
    assert actions[1..][1..] == actions[2..] && actions[2..][1..] == actions[3..] && actions[3..][1..] == actions[4..];
    var w1 := Step(w, actions[0]);
    var w2 := Step(w1, actions[1]);
    var w3 := Step(w2, actions[2]);
    assert Run(w, actions) == Run(w1, actions[1..]);
    assert Run(w1, actions[1..]) == Run(w2, actions[2..]);
    assert Run(w2, actions[2..]) == Run(w3, actions[3..]);
  }
}
