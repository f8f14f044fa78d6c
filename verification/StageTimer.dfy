// The per-stage wall-clock breakdown of a build.
// Source: internal/core/pipeline.go, stageTimer.

module StageTimers {

  datatype Timing = Timing(stage: string, duration: int)

  // The timer's fields as a value; an empty current means no stage is open.
  datatype Timer = Timer(current: string, since: int, stages: seq<Timing>)

  // A call of begin: the name it opens and the clock it read.
  datatype Mark = Mark(name: string, now: int)

  function Begun(t: Timer, m: Mark): Timer
  {
    Timer(m.name, m.now, if t.current == "" then t.stages else t.stages + [Timing(t.current, m.now - t.since)])
  }

  function Finished(t: Timer, now: int): Timer
  {
    Begun(t, Mark("", now))
  }

  class StageTimer {
    var current: string
    var since: int
    var stages: seq<Timing>

    function Snapshot(): Timer
      reads this
    {
      Timer(current, since, stages)
    }

    // newStageTimer: first is already open, from the build's own start.
    constructor (started: int, first: string)
      ensures Snapshot() == Timer(first, started, [])
    {
      current, since, stages := first, started, [];
    }

    method Begin(name: string, now: int)
      modifies this
      ensures Snapshot() == Begun(old(Snapshot()), Mark(name, now))
    {
      if current != "" {
        stages := stages + [Timing(current, now - since)];
      }
      current := name;
      since := now;
    }

    method Finish(now: int) returns (r: seq<Timing>)
      modifies this
      ensures Snapshot() == Finished(old(Snapshot()), now)
      ensures r == Snapshot().stages
    {
      Begin("", now);
      r := stages;
    }
  }

  // ---- Whole runs ---------------------------------------------------------------

  function Run(t: Timer, marks: seq<Mark>): Timer
    decreases |marks|
  {
    if marks == [] then t else Run(Begun(t, marks[0]), marks[1..])
  }

  function Names(stages: seq<Timing>): (r: seq<string>)
    ensures |r| == |stages|
  {
    seq(|stages|, i requires 0 <= i < |stages| => stages[i].stage)
  }

  function Total(stages: seq<Timing>): int
  {
    if stages == [] then 0 else Total(stages[..|stages| - 1]) + stages[|stages| - 1].duration
  }

  // The time during which no stage was open.
  function Idle(t: Timer, marks: seq<Mark>): int
    decreases |marks|
  {
    if marks == [] then 0
    else (if t.current == "" then marks[0].now - t.since else 0) + Idle(Begun(t, marks[0]), marks[1..])
  }

  function Opened(marks: seq<Mark>): (r: seq<string>)
    ensures |r| == |marks|
  {
    seq(|marks|, i requires 0 <= i < |marks| => marks[i].name)
  }

  // Every moment is accounted for, once: the durations recorded and the idle time
  // add up to the time that has passed, whatever names were begun.
  lemma {:induction false} EveryMomentAccounted(t: Timer, marks: seq<Mark>)
    ensures Total(Run(t, marks).stages) + Idle(t, marks) == Total(t.stages) + Run(t, marks).since - t.since
    decreases |marks|
  {
    if marks != [] {
      var next := Begun(t, marks[0]);
      if t.current != "" {
        assert next.stages[..|next.stages| - 1] == t.stages;
      }
      EveryMomentAccounted(next, marks[1..]);
    }
  }

  lemma {:induction false} NeverIdle(t: Timer, marks: seq<Mark>)
    requires t.current != ""
    requires forall m | m in marks :: m.name != ""
    ensures Idle(t, marks) == 0 && Run(t, marks).current != ""
    decreases |marks|
  {
    if marks != [] {
      NeverIdle(Begun(t, marks[0]), marks[1..]);
    }
  }

  lemma {:induction false} StagesInOrder(t: Timer, marks: seq<Mark>)
    requires t.current != ""
    requires forall m | m in marks :: m.name != ""
    ensures var r := Run(t, marks); Names(r.stages) + [r.current] == Names(t.stages) + [t.current] + Opened(marks)
    decreases |marks|
  {
    if marks != [] {
      var next := Begun(t, marks[0]);
      StagesInOrder(next, marks[1..]);
      assert Names(next.stages) == Names(t.stages) + [t.current];
      assert Opened(marks) == [marks[0].name] + Opened(marks[1..]);
    }
  }

  lemma FinishAppends(u: Timer, now: int)
    requires u.current != ""
    ensures var r := Finished(u, now);
            Names(r.stages) == Names(u.stages) + [u.current] && Total(r.stages) == Total(u.stages) + now - u.since
  {
    assert Finished(u, now).stages[..|u.stages|] == u.stages;
  }

  // Any sequence of non-empty begins followed by finish records the first stage
  // and then the begun ones, in order; and finishing again adds nothing.
  lemma FinishReportsEveryStage(started: int, first: string, marks: seq<Mark>, now: int, later: int)
    requires first != ""
    requires forall m | m in marks :: m.name != ""
    ensures var r := Finished(Run(Timer(first, started, []), marks), now);
            Names(r.stages) == [first] + Opened(marks) && Finished(r, later).stages == r.stages
  {
    var t := Timer(first, started, []);
    NeverIdle(t, marks);
    StagesInOrder(t, marks);
    FinishAppends(Run(t, marks), now);
    assert Names(t.stages) == [];
  }

  // And the durations add up to exactly the time from start to finish.
  lemma DurationsAddUp(started: int, first: string, marks: seq<Mark>, now: int)
    requires first != ""
    requires forall m | m in marks :: m.name != ""
    ensures Total(Finished(Run(Timer(first, started, []), marks), now).stages) == now - started
  {
    hide Run;
    var t := Timer(first, started, []);
    NeverIdle(t, marks);
    EveryMomentAccounted(t, marks);
    FinishAppends(Run(t, marks), now);
  }

  // The clock never goes back.
  predicate Monotone(from: int, marks: seq<Mark>)
    decreases |marks|
  {
    marks == [] || (from <= marks[0].now && Monotone(marks[0].now, marks[1..]))
  }

  // On such a clock no duration is negative.
  lemma {:induction false} DurationsNonNegative(t: Timer, marks: seq<Mark>)
    requires Monotone(t.since, marks)
    requires forall s | s in t.stages :: s.duration >= 0
    ensures forall s | s in Run(t, marks).stages :: s.duration >= 0
    decreases |marks|
  {
    if marks != [] {
      DurationsNonNegative(Begun(t, marks[0]), marks[1..]);
    }
  }

  lemma {:induction false} RunThenFinish(t: Timer, marks: seq<Mark>, now: int)
    ensures Run(t, marks + [Mark("", now)]) == Finished(Run(t, marks), now)
    decreases |marks|
  {
    var all := marks + [Mark("", now)];
    if marks == [] {
      assert all[1..] == [];
    } else {
      assert all[1..] == marks[1..] + [Mark("", now)];
      RunThenFinish(Begun(t, marks[0]), marks[1..], now);
    }
  }

  lemma {:induction false} PartOfTotal(stages: seq<Timing>)
    requires forall s | s in stages :: s.duration >= 0
    ensures Total(stages) >= 0 && forall s | s in stages :: s.duration <= Total(stages)
  {
    if stages != [] {
      var k := |stages| - 1;
      PartOfTotal(stages[..k]);
      assert stages == stages[..k] + [stages[k]];
    }
  }

  // So on such a clock every duration finish reports lies between nothing and
  // the length of the whole build, and no stage is counted twice: they fill it.
  lemma StagesFillTheBuild(started: int, first: string, marks: seq<Mark>, now: int)
    requires first != ""
    requires forall m | m in marks :: m.name != ""
    requires Monotone(started, marks + [Mark("", now)])
    ensures var stages := Finished(Run(Timer(first, started, []), marks), now).stages;
            && Total(stages) == now - started
            && forall s | s in stages :: 0 <= s.duration <= now - started
  {
    hide Run, Finished, Total, Monotone;
    var t := Timer(first, started, []);
    RunThenFinish(t, marks, now);
    DurationsNonNegative(t, marks + [Mark("", now)]);
    DurationsAddUp(started, first, marks, now);
    PartOfTotal(Finished(Run(t, marks), now).stages);
  }
}
