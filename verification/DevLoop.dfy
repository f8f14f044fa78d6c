// The dev watch loop: container generations, each with its own context and its
// own one-slot result channel, and the select loop that rebuilds and shuts down.
// Source: cmd/pokkum/dev.go, watchAndRunDevContainer.

module DevLoop {
  import opened Text

  // What runner.Run returned.
  datatype Exit = Clean | Crashed

  datatype Status = Running | Exiting(exit: Exit) | Sent

  // A value in a result channel, with the generation whose goroutine sent it.
  datatype Message = Message(gen: nat, exit: Exit)

  // One container generation: whether the loop has cancelled its context, its
  // goroutine, its channel, and how often it has been sent to.
  datatype Gen = Gen(cancelled: bool, status: Status, chan: Option<Message>, sends: nat)

  // How the function returns: ctx.Err(), or a container's own result. stopped
  // says whether the loop had cancelled that generation before it reported.
  datatype Result = Shutdown | Exited(from: Message, stopped: bool)

  datatype Pc =
    | Select
    | Reporting(from: Message, stopped: bool)   // received, ctx not yet looked at
    | ShutdownWait
    | RebuildWait
    | Building(timedOut: bool)
    | Returned(result: Result)

  // A finished rebuild: whether its stop wait timed out, and whether it built.
  datatype Rebuild = Rebuild(timedOut: bool, built: bool)

  // current is the generation cmdErrChan and cancelContainer belong to; changes
  // are the modification times the loop has rebuilt for.
  datatype State = State(
    pc: Pc, ctxDone: bool, gens: seq<Gen>, current: nat, lastMod: int, last: Option<Rebuild>, changes: seq<int>)

  datatype Action =
    | CancelCtx
    | RunReturns(i: nat, exit: Exit)
    | Send(i: nat)
    | SelectDone
    | SelectExit
    | SelectTick(mod: int)
    | CheckCtx
    | StopReceived
    | StopTimeout
    | Build(ok: bool)

  const LAUNCHED := Gen(false, Running, None, 0)

  function Init(lastMod: int): State
  {
    State(Select, false, [LAUNCHED], 0, lastMod, None, [])
  }

  function Cancelled(s: State): seq<Gen>
    requires s.current < |s.gens|
  {
    s.gens[s.current := s.gens[s.current].(cancelled := true)]
  }

  // Receiving from the current channel empties it.
  function Emptied(s: State): seq<Gen>
    requires s.current < |s.gens|
  {
    s.gens[s.current := s.gens[s.current].(chan := None)]
  }

  // Returning runs the deferred cancel of the current generation.
  function Return(s: State, r: Result): State
    requires s.current < |s.gens|
  {
    s.(pc := Returned(r), gens := Cancelled(s))
  }

  // A goroutine's own steps: Run returns, then the result is sent. The channel
  // has one slot, so a send into a full one would block.
  function GenStep(s: State, a: Action): Option<State>
  {
    match a
    case RunReturns(i, exit) =>
      if i < |s.gens| && s.gens[i].status.Running?
      then Some(s.(gens := s.gens[i := s.gens[i].(status := Exiting(exit))])) else None
    case Send(i) =>
      if i < |s.gens| && s.gens[i].status.Exiting? && s.gens[i].chan.None? then
        Some(s.(gens := s.gens[i := Gen(s.gens[i].cancelled, Sent, Some(Message(i, s.gens[i].status.exit)), s.gens[i].sends + 1)]))
      else None
    case _ => None
  }

  // The loop's own steps.
  function LoopStep(s: State, a: Action): Option<State>
    requires s.current < |s.gens|
  {
    match (s.pc, a)
    case (Select, SelectDone) => if s.ctxDone then Some(s.(pc := ShutdownWait, gens := Cancelled(s))) else None
    case (Select, SelectExit) =>
      if s.gens[s.current].chan.None? then None
      else
        var stopped := s.gens[s.current].cancelled;
        var t := s.(gens := Emptied(s));
        Some(t.(pc := Reporting(s.gens[s.current].chan.value, stopped), gens := Cancelled(t)))
    case (Select, SelectTick(mod)) =>
      if mod > s.lastMod then Some(s.(pc := RebuildWait, lastMod := mod, gens := Cancelled(s), changes := s.changes + [mod]))
      else Some(s)
    case (Reporting(from, stopped), CheckCtx) => Some(Return(s, if s.ctxDone then Shutdown else Exited(from, stopped)))
    case (ShutdownWait, StopReceived) =>
      if s.gens[s.current].chan.Some? then Some(Return(s.(gens := Emptied(s)), Shutdown)) else None
    case (ShutdownWait, StopTimeout) => Some(Return(s, Shutdown))
    case (RebuildWait, StopReceived) =>
      if s.gens[s.current].chan.Some? then Some(s.(pc := Building(false), gens := Emptied(s))) else None
    case (RebuildWait, StopTimeout) => Some(s.(pc := Building(true)))
    case (Building(timedOut), Build(ok)) =>
      if ok then Some(s.(pc := Select, gens := s.gens + [LAUNCHED], current := |s.gens|, last := Some(Rebuild(timedOut, true))))
      else Some(s.(pc := Select, last := Some(Rebuild(timedOut, false))))
    case _ => None
  }

  function Step(s: State, a: Action): Option<State>
    requires s.current < |s.gens|
  {
    match a
    case CancelCtx => if s.ctxDone then None else Some(s.(ctxDone := true))
    case RunReturns(_, _) => GenStep(s, a)
    case Send(_) => GenStep(s, a)
    case _ => LoopStep(s, a)
  }

  // ---- Invariant ------------------------------------------------------------------

  // One generation: it sends at most once, what sits in its channel is its own
  // result, and before it has sent its channel is empty.
  predicate GenOk(s: State, i: nat)
    requires i < |s.gens|
  {
    var g := s.gens[i];
    && g.sends == (if g.status.Sent? then 1 else 0)
    && (!g.status.Sent? ==> g.chan.None?)
    && (g.chan.Some? ==> g.chan.value.gen == i)
    && (i < s.current ==> g.cancelled)
  }

  // Where the loop is, and what has become of the current generation.
  predicate LoopOk(s: State)
    requires s.current < |s.gens|
  {
    var g := s.gens[s.current];
    match s.pc
    case Select => g.cancelled <==> s.last.Some? && !s.last.value.built
    case Reporting(from, stopped) => g.cancelled && from.gen == s.current && (stopped <==> s.last == Some(Rebuild(true, false)))
    case ShutdownWait => g.cancelled
    case RebuildWait => g.cancelled
    case Building(timedOut) => g.cancelled && (!timedOut ==> Drained(g))
    case Returned(r) =>
      g.cancelled && (r.Exited? ==> r.from.gen == s.current && (r.stopped <==> s.last == Some(Rebuild(true, false))))
  }

  // It has sent, and the loop has read it: nothing more can come.
  predicate Drained(g: Gen)
  {
    g.status.Sent? && g.chan.None?
  }

  predicate Increasing(s: seq<int>)
  {
    forall i, j | 0 <= i < j < |s| :: s[i] < s[j]
  }

  predicate Inv(s: State)
  {
    && |s.gens| > 0 && s.current == |s.gens| - 1
    && (forall i | 0 <= i < |s.gens| :: GenOk(s, i))
    && LoopOk(s)
    && (s.pc.Select? && s.last.Some? && s.last.value == Rebuild(false, false) ==> Drained(s.gens[s.current]))
    && Increasing(s.changes)
    && (forall m | m in s.changes :: m <= s.lastMod)
  }

  lemma GensOk(s: State, a: Action)
    requires Inv(s) && Step(s, a).Some?
    ensures var t := Step(s, a).value; forall i | 0 <= i < |t.gens| :: GenOk(t, i)
  {
    var t := Step(s, a).value;
    forall i | 0 <= i < |t.gens|
      ensures GenOk(t, i)
    {
      if i < |s.gens| {
        assert GenOk(s, i);
      }
    }
  }

  lemma ChangesOk(s: State, mod: int)
    requires Inv(s) && mod > s.lastMod
    ensures Increasing(s.changes + [mod])
  {
    var longer := s.changes + [mod];
    forall i, j | 0 <= i < j < |longer|
      ensures longer[i] < longer[j]
    {
      assert longer[i] in s.changes;
    }
  }

  lemma StepKeepsInv(s: State, a: Action)
    requires Inv(s) && Step(s, a).Some?
    ensures Inv(Step(s, a).value)
  {
    GensOk(s, a);
    assert GenOk(s, s.current);
    if a.SelectTick? && a.mod > s.lastMod {
      ChangesOk(s, a.mod);
    }
    hide GenOk, Increasing;
  }

  function Exec(s: State, acts: seq<Action>): Option<State>
    requires Inv(s)
    decreases |acts|
  {
    if acts == [] then Some(s)
    else if Step(s, acts[0]).None? then None
    else
      StepKeepsInv(s, acts[0]);
      Exec(Step(s, acts[0]).value, acts[1..])
  }

  ghost predicate Reachable(s: State)
  {
    exists lastMod, acts :: Exec(Init(lastMod), acts) == Some(s)
  }

  lemma {:induction false} ExecKeepsInv(s: State, acts: seq<Action>)
    requires Inv(s) && Exec(s, acts).Some?
    ensures Inv(Exec(s, acts).value)
    decreases |acts|
  {
    if acts != [] {
      StepKeepsInv(s, acts[0]);
      ExecKeepsInv(Step(s, acts[0]).value, acts[1..]);
    }
  }

  lemma ReachableInv(s: State)
    requires Reachable(s)
    ensures Inv(s)
  {
    var lastMod, acts :| Exec(Init(lastMod), acts) == Some(s);
    ExecKeepsInv(Init(lastMod), acts);
  }

  // ---- Results -----------------------------------------------------------------------

  // Whatever the loop can receive was sent by the newest generation's own
  // goroutine: no superseded generation's late result is ever read.
  lemma OnlyTheNewestIsHeard(s: State)
    requires Reachable(s)
    ensures s.gens != [] && s.current == |s.gens| - 1
    ensures s.gens[s.current].chan.Some? ==> s.gens[s.current].chan.value.gen == |s.gens| - 1
    ensures s.pc.Returned? && s.pc.result.Exited? ==> s.pc.result.from.gen == |s.gens| - 1
  {
    ReachableInv(s);
    assert GenOk(s, s.current);
  }

  // A container exit returned as the session's result comes from a generation the
  // loop had not itself stopped, except exactly when the last rebuild's stop wait
  // timed out and that rebuild then failed.
  lemma ExitIsGenuineUnless(s: State)
    requires Reachable(s) && s.pc.Returned? && s.pc.result.Exited?
    ensures s.pc.result.stopped <==> s.last == Some(Rebuild(true, false))
  {
    ReachableInv(s);
  }

  lemma {:induction false} ExecExtend(s: State, acts: seq<Action>, a: Action)
    requires Inv(s) && Exec(s, acts).Some?
    ensures Inv(Exec(s, acts).value) && Exec(s, acts + [a]) == Step(Exec(s, acts).value, a)
    decreases |acts|
  {
    ExecKeepsInv(s, acts);
    hide Inv, Step;
    if acts != [] {
      StepKeepsInv(s, acts[0]);
      ExecExtend(Step(s, acts[0]).value, acts[1..], a);
      assert (acts + [a])[1..] == acts[1..] + [a];
    } else {
      assert [a][1..] == [];
      assert Exec(s, [a]) == Step(s, a) by {
        if Step(s, a).Some? {
          StepKeepsInv(s, a);
        }
      }
    }
  }

  lemma ReachableStep(s: State, a: Action)
    requires Reachable(s)
    ensures s.current < |s.gens|
    ensures Step(s, a).Some? ==> Reachable(Step(s, a).value)
  {
    ReachableInv(s);
    var lastMod, acts :| Exec(Init(lastMod), acts) == Some(s);
    ExecExtend(Init(lastMod), acts, a);
  }

  lemma TimedOutAndFailed() returns (s: State)
    ensures Reachable(s)
    ensures s == State(Select, false, [Gen(true, Running, None, 0)], 0, 1, Some(Rebuild(true, false)), [1])
  {
    s := Init(0);
    assert Exec(Init(0), []) == Some(s);
    hide Reachable;
    s := Take(s, SelectTick(1));
    s := Take(s, StopTimeout);
    s := Take(s, Build(false));
  }

  // The exception does happen: a stop that outlives its wait, a failed rebuild,
  // and the old container's kill is reported as the session's crash.
  lemma LateStopReportedAsCrash() returns (s: State)
    ensures Reachable(s) && s.pc == Returned(Exited(Message(0, Crashed), true))
  {
    hide Reachable;
    s := TimedOutAndFailed();
    s := Take(s, RunReturns(0, Crashed));
    s := Take(s, Send(0));
    s := Take(s, SelectExit);
    s := Take(s, CheckCtx);
  }

  lemma Take(s: State, a: Action) returns (t: State)
    requires Reachable(s) && s.current < |s.gens| && Step(s, a).Some?
    ensures Reachable(t) && Step(s, a) == Some(t)
  {
    ReachableStep(s, a);
    t := Step(s, a).value;
  }

  // A shutdown is never reported as a crash: with the outer context done by the
  // time the result is looked at, the loop returns the shutdown.
  lemma ShutdownIsNotACrash(s: State, a: Action)
    requires Reachable(s)
    ensures s.gens != [] && s.current < |s.gens|
    ensures s.ctxDone && !s.pc.Returned? && Step(s, a).Some? && Step(s, a).value.pc.Returned?
            ==> Step(s, a).value.pc.result == Shutdown
  {
    ReachableInv(s);
  }

  // Each channel is sent to at most once and no send ever blocks, however late.
  lemma SendsNeverBlock(s: State, i: nat)
    requires Reachable(s) && i < |s.gens|
    ensures s.gens[i].sends <= 1
    ensures s.current < |s.gens| && (s.gens[i].status.Exiting? ==> Step(s, Send(i)).Some?)
  {
    ReachableInv(s);
    assert GenOk(s, i);
  }

  // At most one generation's context is live, it is the newest, and a new one
  // is launched only once its predecessor's has been cancelled.
  lemma OneLiveGeneration(s: State, i: nat)
    requires Reachable(s) && i < |s.gens| && !s.gens[i].cancelled
    ensures i == |s.gens| - 1 && s.pc.Select?
  {
    ReachableInv(s);
    assert GenOk(s, i);
  }

  lemma LaunchedAfterCancel(s: State, a: Action)
    requires Reachable(s)
    ensures s.gens != [] && s.current < |s.gens|
    ensures Step(s, a).Some? && |Step(s, a).value.gens| > |s.gens| ==> forall i | 0 <= i < |s.gens| :: s.gens[i].cancelled
  {
    ReachableInv(s);
    forall i | 0 <= i < |s.gens|
      ensures s.pc.Building? ==> s.gens[i].cancelled
    {
      assert GenOk(s, i);
    }
  }

  // When the loop has returned, every generation's context is cancelled.
  lemma AllCancelledOnReturn(s: State)
    requires Reachable(s) && s.pc.Returned?
    ensures forall i | 0 <= i < |s.gens| :: s.gens[i].cancelled
  {
    ReachableInv(s);
    forall i | 0 <= i < |s.gens|
      ensures s.gens[i].cancelled
    {
      assert GenOk(s, i);
    }
  }

  // A change to the sources is rebuilt for at most once: the times rebuilt for
  // strictly increase.
  lemma OneRebuildPerChange(s: State)
    requires Reachable(s)
    ensures Increasing(s.changes)
  {
    ReachableInv(s);
  }

  // ---- What the loop does -------------------------------------------------------------

  // What an onlooker counts from the actions alone: how the last stop wait ended,
  // the last rebuild, the newest modification seen and each that was newer than
  // all before, how often it was built and how often that worked.
  datatype Log = Log(timedOut: bool, last: Option<Rebuild>, newest: int, changes: seq<int>, builds: nat, launches: nat)

  function Noted(w: Log, a: Action): Log
  {
    match a
    case StopReceived => w.(timedOut := false)
    case StopTimeout => w.(timedOut := true)
    case SelectTick(mod) => if mod > w.newest then w.(newest := mod, changes := w.changes + [mod]) else w
    case Build(ok) =>
      w.(last := Some(Rebuild(w.timedOut, ok)), builds := w.builds + 1, launches := w.launches + (if ok then 1 else 0))
    case _ => w
  }

  function Watched(w: Log, acts: seq<Action>): Log
    decreases |acts|
  {
    if acts == [] then w else Watched(Noted(w, acts[0]), acts[1..])
  }

  // A change seen and not built yet.
  function Pending(pc: Pc): nat
  {
    if pc.RebuildWait? || pc.Building? then 1 else 0
  }

  predicate Agree(s: State, w: Log)
  {
    && |s.gens| == 1 + w.launches && s.last == w.last && s.lastMod == w.newest && s.changes == w.changes
    && |w.changes| == w.builds + Pending(s.pc)
    && (s.pc.Building? ==> s.pc.timedOut == w.timedOut)
  }

  lemma StepAgrees(s: State, a: Action, w: Log)
    requires Inv(s) && Step(s, a).Some? && Agree(s, w)
    ensures Agree(Step(s, a).value, Noted(w, a))
  {
    hide GenOk, LoopOk, Increasing;
  }

  lemma {:induction false} ExecAgrees(s: State, acts: seq<Action>, w: Log)
    requires Inv(s) && Exec(s, acts).Some? && Agree(s, w)
    ensures Agree(Exec(s, acts).value, Watched(w, acts))
    decreases |acts|
  {
    hide Agree;
    if acts != [] {
      StepAgrees(s, acts[0], w);
      StepKeepsInv(s, acts[0]);
      ExecAgrees(Step(s, acts[0]).value, acts[1..], Noted(w, acts[0]));
    }
  }

  // Of every run: each modification newer than all before it, and no other, is
  // built for, once; each build that works launches one generation; and the loop
  // remembers of its last rebuild how the stop wait ended and whether it worked.
  lemma EveryChangeIsBuilt(lastMod: int, acts: seq<Action>)
    requires Exec(Init(lastMod), acts).Some?
    ensures Agree(Exec(Init(lastMod), acts).value, Watched(Log(false, None, lastMod, [], 0, 0), acts))
  {
    ExecAgrees(Init(lastMod), acts, Log(false, None, lastMod, [], 0, 0));
  }

  // A build that works puts a new generation in charge, live, running and not yet
  // heard of, and leaves the others as they are; one that fails changes none.
  lemma RebuildLaunches(s: State, ok: bool)
    requires Reachable(s) && s.pc.Building?
    ensures s.current < |s.gens| && Step(s, Build(ok)).Some?
    ensures var t := Step(s, Build(ok)).value;
            && t.pc.Select? && t.ctxDone == s.ctxDone
            && (!ok ==> t.gens == s.gens && t.current == s.current)
            && (ok ==> |t.gens| == |s.gens| + 1 && t.gens[..|s.gens|] == s.gens && t.current == |s.gens|
                       && !t.gens[t.current].cancelled && t.gens[t.current].status.Running?
                       && t.gens[t.current].chan.None? && t.gens[t.current].sends == 0)
  {
    ReachableInv(s);
  }

  // Once the outer context is done the loop can always get to its return, in at
  // most four of its own steps, without waiting for any container.
  lemma ShutdownReturns(s: State) returns (acts: seq<Action>)
    requires Reachable(s) && s.ctxDone && !s.pc.Returned?
    ensures |acts| <= 4 && Inv(s) && Exec(s, acts).Some? && Exec(s, acts).value.pc == Returned(Shutdown)
  {
    ReachableInv(s);
    var a := match s.pc
      case Select => SelectDone
      case Reporting(_, _) => CheckCtx
      case Building(_) => Build(false)
      case _ => StopTimeout;
    var t := Take(s, a);
    ReachableInv(t);
    if t.pc.Returned? {
      return [a];
    }
    var rest := FinishShutdown(t);
    acts := [a] + rest;
    assert acts[1..] == rest;
  }

  lemma FinishShutdown(s: State) returns (acts: seq<Action>)
    requires Reachable(s) && s.ctxDone && (s.pc.Select? || s.pc.ShutdownWait? || s.pc.Building?)
    ensures |acts| <= (if s.pc.Select? then 2 else if s.pc.Building? then 3 else 1)
    ensures Inv(s) && Exec(s, acts).Some? && Exec(s, acts).value.pc == Returned(Shutdown)
    decreases if s.pc.Select? then 1 else if s.pc.Building? then 2 else 0
  {
    ReachableInv(s);
    var a := if s.pc.Select? then SelectDone else if s.pc.Building? then Build(false) else StopTimeout;
    var t := Take(s, a);
    ReachableInv(t);
    if t.pc.Returned? {
      assert [a][1..] == [];
      return [a];
    }
    var rest := FinishShutdown(t);
    acts := [a] + rest;
    assert acts[1..] == rest;
  }

  // A newer modification, and only a newer one, stops the current generation for
  // a rebuild; the container's own exit ends the loop.
  lemma SelectDoes(s: State, mod: int)
    requires Reachable(s) && s.pc.Select?
    ensures s.current < |s.gens| && Step(s, SelectTick(mod)).Some?
    ensures var t := Step(s, SelectTick(mod)).value;
            if mod > s.lastMod then t.pc.RebuildWait? && t.gens == Cancelled(s) else t == s
    ensures Step(s, SelectExit).Some? <==> s.gens[s.current].chan.Some?
    ensures Step(s, SelectExit).Some? ==> Step(s, SelectExit).value.pc.Reporting?
                                          && Step(s, SelectExit).value.pc.from == s.gens[s.current].chan.value
  {
    ReachableInv(s);
  }

  // ---- Whose result it is ----------------------------------------------------------------

  // Every exit the loop holds, or is about to be sent, is one that Run returned
  // for that very generation.
  predicate FromRuns(s: State, past: set<Action>)
  {
    && (forall i | 0 <= i < |s.gens| ::
          && (s.gens[i].status.Exiting? ==> RunReturns(i, s.gens[i].status.exit) in past)
          && (s.gens[i].chan.Some? ==> RunReturns(s.gens[i].chan.value.gen, s.gens[i].chan.value.exit) in past))
    && (s.pc.Reporting? ==> RunReturns(s.pc.from.gen, s.pc.from.exit) in past)
    && (s.pc.Returned? && s.pc.result.Exited? ==> RunReturns(s.pc.result.from.gen, s.pc.result.from.exit) in past)
  }

  lemma StepFromRuns(s: State, a: Action, past: set<Action>)
    requires s.current < |s.gens| && FromRuns(s, past) && Step(s, a).Some?
    ensures FromRuns(Step(s, a).value, past + {a})
  {
  }

  lemma {:induction false} ExecFromRuns(s: State, acts: seq<Action>, past: set<Action>)
    requires Inv(s) && Exec(s, acts).Some? && FromRuns(s, past)
    ensures FromRuns(Exec(s, acts).value, past + (set a | a in acts))
    decreases |acts|
  {
    hide FromRuns;
    if acts != [] {
      StepFromRuns(s, acts[0], past);
      StepKeepsInv(s, acts[0]);
      ExecFromRuns(Step(s, acts[0]).value, acts[1..], past + {acts[0]});
      assert past + {acts[0]} + (set a | a in acts[1..]) == past + (set a | a in acts);
    } else {
      assert past + (set a | a in acts) == past;
    }
  }

  // The exit the loop returns is the one the newest generation's Run returned.
  lemma ExitIsTheNewestRuns(lastMod: int, acts: seq<Action>)
    requires Exec(Init(lastMod), acts).Some?
    ensures var s := Exec(Init(lastMod), acts).value;
            s.pc.Returned? && s.pc.result.Exited? ==>
              |s.gens| > 0 && RunReturns(|s.gens| - 1, s.pc.result.from.exit) in acts
  {
    ExecFromRuns(Init(lastMod), acts, {});
    OnlyTheNewestIsHeard(Exec(Init(lastMod), acts).value);
  }
}
