/**
 The T1 timer: the main loop starts and cancels goroutines that wait, lower the running flag and
 signal an event. Every read and write of shared state is a step of its own, so a run is any
 interleaving of the loop with the goroutines.
 */
module RoundTimer {
  import opened Types
  import opened NodeModel

  /** The timer should run: the node leads the round and is not recovering. */
  predicate Due(p: Params, n: NodeState) {
    n.leader == p.id && !n.status.Recovering?
  }

  /** Created: the context exists and the goroutine is not launched. Fired: time is up and the flag is not lowered yet. */
  datatype Phase = Created | Waiting | Fired | Sending | Done

  datatype Routine = Routine(phase: Phase, cancelled: bool)

  /** What the main loop does next; Idle is the wait for the next message, event or tick. */
  datatype Pc = Idle | Ensure | Cancel(starting: bool) | Clear(starting: bool) | Create | Raise | Launch

  datatype Timer = Timer(
    pc: Pc,
    due: bool,
    isRunning: bool,
    cancel: Option<nat>,
    routines: seq<Routine>,
    event: bool)

  const START := Timer(Idle, false, false, None, [], false)

  datatype Action =
    | Turn(due: bool, t1: bool)  // the loop handles something; `t1` when it is the timer event
    | Main                       // the loop's next step inside ensureT1TimerState
    | Fire(i: nat)
    | Lower(i: nat)
    | Deliver(i: nat)
    | Abandon(i: nat)

  predicate InPhase(t: Timer, i: nat, phase: Phase) {
    i < |t.routines| && t.routines[i].phase == phase
  }

  predicate Enabled(t: Timer, a: Action) {
    match a
    case Turn(_, t1) => t.pc.Idle? && (t1 ==> t.event)
    case Main => !t.pc.Idle?
    case Fire(i) => InPhase(t, i, Waiting)
    case Lower(i) => InPhase(t, i, Fired)
    case Deliver(i) => InPhase(t, i, Sending) && !t.event
    case Abandon(i) => (InPhase(t, i, Waiting) || InPhase(t, i, Sending)) && t.routines[i].cancelled
  }

  function Move(t: Timer, i: nat, phase: Phase): Timer
    requires i < |t.routines|
  {
    t.(routines := t.routines[i := t.routines[i].(phase := phase)])
  }

  function Next(t: Timer, a: Action): Timer
    requires Enabled(t, a)
  {
    match a
    case Turn(due, t1) => t.(pc := Ensure, due := due, event := t.event && !t1)
    case Main => NextMain(t)
    case Fire(i) => Move(t, i, Fired)
    case Lower(i) => Move(t, i, Sending).(isRunning := false)
    case Deliver(i) => Move(t, i, Done).(event := true)
    case Abandon(i) => Move(t, i, Done)
  }

  function NextMain(t: Timer): Timer
    requires !t.pc.Idle?
  {
    match t.pc
    case Ensure => t.(pc := if t.due != t.isRunning then Cancel(t.due) else Idle)
    case Cancel(starting) =>
      var stopped := t.(pc := Clear(starting), cancel := None);
      if t.cancel.Some? && t.cancel.value < |t.routines|
      then stopped.(routines := t.routines[t.cancel.value := t.routines[t.cancel.value].(cancelled := true)])
      else stopped
    case Clear(starting) => t.(pc := if starting then Create else Idle, isRunning := false)
    case Create => t.(pc := Raise, cancel := Some(|t.routines|), routines := t.routines + [Routine(Created, false)])
    case Raise => t.(pc := Launch, isRunning := true)
    case Launch =>
      var launched := t.(pc := Idle);
      if t.cancel.Some? && t.cancel.value < |t.routines| then Move(launched, t.cancel.value, Waiting) else launched
  }

  ghost predicate Runs(t: Timer, actions: seq<Action>)
    decreases |actions|
  {
    actions == [] || (Enabled(t, actions[0]) && Runs(Next(t, actions[0]), actions[1..]))
  }

  ghost function After(t: Timer, actions: seq<Action>): Timer
    requires Runs(t, actions)
    decreases |actions|
  {
    if actions == [] then t else After(Next(t, actions[0]), actions[1..])
  }

  // ---- the invariant ----

  predicate Ticking(phase: Phase) {
    phase.Waiting? || phase.Fired?
  }

  /** Only the goroutine behind the cancel function has an uncancelled context. */
  ghost predicate Owned(t: Timer) {
    && (forall i :: 0 <= i < |t.routines| && !t.routines[i].cancelled ==> t.cancel == Some(i))
    && (t.cancel.Some? ==> t.cancel.value < |t.routines| && !t.routines[t.cancel.value].cancelled)
    && (forall i :: 0 <= i < |t.routines| && t.routines[i].phase.Created? ==> t.cancel == Some(i) && (t.pc.Raise? || t.pc.Launch?))
  }

  /** A raised flag means that a goroutine is about to lower it; the loop's place fits what is due. */
  ghost predicate Flagged(t: Timer) {
    && (t.isRunning && !t.pc.Clear? ==>
          t.cancel.Some? && t.cancel.value < |t.routines| && (Ticking(t.routines[t.cancel.value].phase) || t.routines[t.cancel.value].phase.Created?))
    && (t.pc.Cancel? || t.pc.Clear? ==> t.pc.starting == t.due)
    && (t.pc.Clear? || t.pc.Create? ==> t.cancel.None?)
    && (t.pc.Create? || t.pc.Raise? || t.pc.Launch? ==> t.due)
    && (t.pc.Raise? || t.pc.Launch? ==> t.cancel.Some? && t.cancel.value < |t.routines| && t.routines[t.cancel.value].phase.Created?)
  }

  /** A timer that is due will fire, or has fired and its event is on the way or waiting. */
  ghost predicate Armed(t: Timer) {
    t.pc.Idle? && t.due ==>
      t.cancel.Some? && t.cancel.value < |t.routines| && (!t.routines[t.cancel.value].phase.Done? || t.event)
  }

  ghost predicate Inv(t: Timer) {
    Owned(t) && Flagged(t) && Armed(t)
  }

  lemma MainKeeps(t: Timer)
    requires Inv(t) && !t.pc.Idle?
    ensures Inv(NextMain(t))
  {
  }

  lemma RoutineKeeps(t: Timer, a: Action)
    requires Inv(t) && Enabled(t, a) && !a.Turn? && !a.Main?
    ensures Inv(Next(t, a))
  {
    RoutineKeepsOwner(t, a);
    RoutineKeepsFlag(t, a);
  }

  lemma RoutineKeepsOwner(t: Timer, a: Action)
    requires Inv(t) && Enabled(t, a) && !a.Turn? && !a.Main?
    ensures Owned(Next(t, a))
  {
    assert forall j :: 0 <= j < |t.routines| && j != a.i ==> Next(t, a).routines[j] == t.routines[j];
  }

  lemma RoutineKeepsFlag(t: Timer, a: Action)
    requires Inv(t) && Enabled(t, a) && !a.Turn? && !a.Main?
    ensures Flagged(Next(t, a)) && Armed(Next(t, a))
  {
  }

  lemma StepKeeps(t: Timer, a: Action)
    requires Inv(t) && Enabled(t, a)
    ensures Inv(Next(t, a))
  {
    match a
    case Turn(_, _) =>
    case Main => MainKeeps(t);
    case _ => RoutineKeeps(t, a);
  }

  lemma {:induction false} RunKeeps(t: Timer, actions: seq<Action>)
    requires Inv(t) && Runs(t, actions)
    ensures Inv(After(t, actions))
    decreases |actions|
  {
    if actions != [] {
      StepKeeps(t, actions[0]);
      RunKeeps(Next(t, actions[0]), actions[1..]);
    }
  }

  /** How many of the actions bring a timer event. */
  function Delivered(actions: seq<Action>): nat {
    if actions == [] then 0 else (if actions[0].Deliver? then 1 else 0) + Delivered(actions[1..])
  }

  /** How many turns of the loop handle a timer event. */
  function Handled(actions: seq<Action>): nat {
    if actions == [] then 0 else (if actions[0].Turn? && actions[0].t1 then 1 else 0) + Handled(actions[1..])
  }

  /** In every interleaving each timer event is handled once or still waiting, and none is handled that was not brought. */
  lemma {:induction false} EventsHandledOnce(t: Timer, actions: seq<Action>)
    requires Runs(t, actions)
    ensures (if t.event then 1 else 0) + Delivered(actions) == Handled(actions) + (if After(t, actions).event then 1 else 0)
    decreases |actions|
  {
    if actions != [] {
      EventsHandledOnce(Next(t, actions[0]), actions[1..]);
    }
  }

  /** In every interleaving at most one goroutine has an uncancelled context. */
  lemma AtMostOneUncancelled(actions: seq<Action>, i: nat, j: nat)
    requires Runs(START, actions)
    requires i < |After(START, actions).routines| && !After(START, actions).routines[i].cancelled
    requires j < |After(START, actions).routines| && !After(START, actions).routines[j].cancelled
    ensures i == j
  {
    RunKeeps(START, actions);
  }

  /** In every interleaving a leader waiting for its next message has a timer on the way to its event. */
  lemma LeaderNeverWaitsForever(actions: seq<Action>)
    requires Runs(START, actions) && After(START, actions).pc.Idle? && After(START, actions).due
    ensures var t := After(START, actions);
            t.event || exists i :: 0 <= i < |t.routines| && !t.routines[i].cancelled && !t.routines[i].phase.Done?
  {
    RunKeeps(START, actions);
    var t := After(START, actions);
    assert !t.routines[t.cancel.value].cancelled;
  }

  // ---- timers of a node that does not lead ----

  /** A goroutine with an uncancelled context has its signal still ahead. */
  ghost predicate Live(t: Timer) {
    t.cancel.Some? && t.cancel.value < |t.routines| && Ticking(t.routines[t.cancel.value].phase)
  }

  /** A goroutine that was cancelled after it fired lowers the flag of its successor. */
  predicate StaleWrite(t: Timer, a: Action) {
    a.Lower? && a.i < |t.routines| && t.routines[a.i].cancelled
  }

  ghost predicate NoStaleWrites(t: Timer, actions: seq<Action>)
    requires Runs(t, actions)
    decreases |actions|
  {
    actions == [] || (!StaleWrite(t, actions[0]) && NoStaleWrites(Next(t, actions[0]), actions[1..]))
  }

  /** The flag is raised whenever a timer is live, and a live timer is due while the loop waits. */
  ghost predicate Accurate(t: Timer) {
    && (Live(t) ==> t.isRunning)
    && (t.pc.Launch? ==> t.isRunning)
    && (t.pc.Idle? && !t.due ==> !Live(t))
  }

  lemma {:induction false} RunStaysAccurate(t: Timer, actions: seq<Action>)
    requires Inv(t) && Accurate(t) && Runs(t, actions) && NoStaleWrites(t, actions)
    ensures Accurate(After(t, actions))
    decreases |actions|
  {
    if actions != [] {
      StepKeeps(t, actions[0]);
      RunStaysAccurate(Next(t, actions[0]), actions[1..]);
    }
  }

  /** Without stale writes a node that does not lead has no live timer. */
  lemma NoTimerUnlessDue(actions: seq<Action>)
    requires Runs(START, actions) && NoStaleWrites(START, actions)
    ensures var t := After(START, actions); t.pc.Idle? && !t.due ==> !Live(t)
  {
    RunStaysAccurate(START, actions);
  }

  /** Extends a run by one action. */
  lemma {:induction false} Extend(s: Timer, actions: seq<Action>, t: Timer, a: Action) returns (more: seq<Action>)
    requires Runs(s, actions) && After(s, actions) == t && Enabled(t, a)
    ensures Runs(s, more) && After(s, more) == Next(t, a)
    decreases |actions|
  {
    if actions == [] {
      more := [a];
      assert more[1..] == [] && Runs(Next(s, a), []);
    } else {
      var rest := Extend(Next(s, actions[0]), actions[1..], t, a);
      more := [actions[0]] + rest;
      assert more[1..] == rest;
    }
  }

  lemma ExtendMain(s: Timer, actions: seq<Action>, t: Timer, u: Timer) returns (more: seq<Action>)
    requires Runs(s, actions) && After(s, actions) == t && !t.pc.Idle? && NextMain(t) == u && !u.pc.Idle?
    ensures Runs(s, more) && After(s, more) == NextMain(u)
  {
    more := Extend(s, actions, t, Main);
    more := Extend(s, more, u, Main);
  }

  /** The loop finds that a timer is due and starts one. */
  lemma ExtendStart(s: Timer, actions: seq<Action>, t: Timer, u: Timer) returns (more: seq<Action>)
    requires Runs(s, actions) && After(s, actions) == t && t.pc.Idle? && !t.isRunning && t.cancel.None?
    requires u == Timer(Idle, true, true, Some(|t.routines|), t.routines + [Routine(Waiting, false)], t.event)
    ensures Runs(s, more) && After(s, more) == u
  {
    var t1 := t.(pc := Ensure, due := true);
    var t3 := t1.(pc := Clear(true));
    var t5 := t3.(pc := Raise, cancel := Some(|t.routines|), routines := t.routines + [Routine(Created, false)]);
    more := Extend(s, actions, t, Turn(true, false));
    more := ExtendMain(s, more, t1, t1.(pc := Cancel(true)));
    more := ExtendMain(s, more, t3, t3.(pc := Create));
    more := ExtendMain(s, more, t5, t5.(pc := Launch, isRunning := true));
    assert Move(t5.(pc := Idle, isRunning := true), |t.routines|, Waiting).routines == u.routines;
  }

  /** The loop finds that the running timer is no longer due and stops it. */
  lemma ExtendStop(s: Timer, actions: seq<Action>, t: Timer, u: Timer) returns (more: seq<Action>)
    requires Runs(s, actions) && After(s, actions) == t && t.pc.Idle? && t.isRunning && t.cancel == Some(0) && |t.routines| == 1
    requires u == Timer(Idle, false, false, None, [t.routines[0].(cancelled := true)], t.event)
    ensures Runs(s, more) && After(s, more) == u
  {
    var t1 := t.(pc := Ensure, due := false);
    var t2 := t1.(pc := Cancel(false));
    var t3 := t2.(pc := Clear(false), cancel := None, routines := u.routines);
    more := Extend(s, actions, t, Turn(false, false));
    assert NextMain(t2).routines == t3.routines;
    more := ExtendMain(s, more, t1, t2);
    more := Extend(s, more, t3, Main);
  }

  /**
   A node that does not lead can be left with a live timer: a goroutine that was cancelled after it
   fired lowers the flag of the one that replaced it, and the loop takes the timer for stopped.
   */
  lemma LiveTimerWithoutLeading() returns (actions: seq<Action>)
    ensures Runs(START, actions)
    ensures var t := After(START, actions); t.pc.Idle? && !t.due && Live(t)
  {
    assert Runs(START, []);
    var first := Timer(Idle, true, true, Some(0), [Routine(Waiting, false)], false);
    actions := ExtendStart(START, [], START, first);
    actions := Extend(START, actions, first, Fire(0));
    var fired := first.(routines := [Routine(Fired, false)]);
    assert Next(first, Fire(0)).routines == fired.routines;
    var stopped := Timer(Idle, false, false, None, [Routine(Fired, true)], false);
    actions := ExtendStop(START, actions, fired, stopped);
    var second := Timer(Idle, true, true, Some(1), [Routine(Fired, true), Routine(Waiting, false)], false);
    actions := ExtendStart(START, actions, stopped, second);
    actions := Extend(START, actions, second, Lower(0));
    var lowered := second.(isRunning := false, routines := [Routine(Sending, true), Routine(Waiting, false)]);
    assert Next(second, Lower(0)).routines == lowered.routines;
    actions := Extend(START, actions, lowered, Turn(false, false));
    actions := Extend(START, actions, lowered.(pc := Ensure, due := false), Main);
  }

  /** What the loop does from its look at the flag until it waits again, when nothing interferes. */
  function EnsureTimer(t: Timer): Timer
    requires t.pc.Ensure?
  {
    if t.due == t.isRunning then t.(pc := Idle) else
    var cleared := NextMain(NextMain(NextMain(t)));
    if t.due then NextMain(NextMain(NextMain(cleared))) else cleared
  }

  /** A timer that is not due survives the check exactly when its flag was already lowered. */
  lemma SurvivesIffFlagLowered(t: Timer)
    requires Inv(t) && t.pc.Ensure? && !t.due
    ensures EnsureTimer(t).pc.Idle?
    ensures Live(EnsureTimer(t)) <==> Live(t) && !t.isRunning
  {
  }

  // ---- what an event can cause ----

  /** The event leads to a proposal or a request only in a node that leads and is not recovering, and is harmless otherwise. */
  lemma EventNeedsLeader(p: Params, n: NodeState, env: Env)
    requires Healthy(n) && p.id != NO_PEER
    ensures var o := HandleT1Timeout(p, n, env);
            && (o.proposal.Some? || o.request.Some? ==> Due(p, n))
            && (!Due(p, n) ==> o == RoundOutcome(n, None, None))
  {
  }
}
