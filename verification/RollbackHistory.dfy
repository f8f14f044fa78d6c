// The rollback history as a state machine over the current image and the images
// before it, newest first.
// Source: cmd/pokkum/rollback.go, runRollback.

module RollbackHistory {
  import opened Text

  type Ref = string

  const MAX_HISTORY: nat := 20

  function Without(history: seq<Ref>, a: Ref, b: Ref): (r: seq<Ref>)
    ensures forall h | h in r :: h in history && h != a && h != b
    ensures forall h | h in history && h != a && h != b :: h in r
    ensures |r| <= |history|
  {
    if history == [] then []
    else
      var rest := Without(history[1..], a, b);
      if history[0] != a && history[0] != b then [history[0]] + rest else rest
  }

  function Capped(history: seq<Ref>): seq<Ref>
  {
    if |history| > MAX_HISTORY then history[..MAX_HISTORY] else history
  }

  // The history after the image has gone from displaced to target.
  function Updated(displaced: Ref, history: seq<Ref>, target: Ref): seq<Ref>
  {
    if displaced == target then history else Capped([displaced] + Without(history, target, displaced))
  }

  method UpdateHistory(displaced: Ref, history: seq<Ref>, target: Ref) returns (updated: seq<Ref>)
    ensures updated == Updated(displaced, history, target)
  {
    if displaced == target {
      return history;
    }
    updated := [displaced];
    for i := 0 to |history|
      invariant updated + Without(history[i..], target, displaced) == [displaced] + Without(history, target, displaced)
    {
      assert history[i..] == [history[i]] + history[i + 1..];
      if history[i] != target && history[i] != displaced {
        updated := updated + [history[i]];
      }
    }
    if |updated| > MAX_HISTORY {
      updated := updated[..MAX_HISTORY];
    }
  }

  // Where a rollback goes: --to when given, else that many generations back, 1
  // when the number is not positive.
  function Target(history: seq<Ref>, to: string, generation: int): (r: Option<Ref>)
    ensures r.None? <==> Trim(to) == [] && (if generation <= 0 then 1 else generation) > |history|
    ensures Trim(to) == [] && r.Some? ==> r.value in history
  {
    var back := if generation <= 0 then 1 else generation;
    if Trim(to) != [] then Some(Trim(to))
    else if back > |history| then None
    else Some(history[back - 1])
  }

  // ---- Runs of rollbacks ------------------------------------------------------------

  datatype State = State(current: Ref, history: seq<Ref>)

  predicate Tidy(s: State)
  {
    Distinct(s.history) && s.current !in s.history
  }

  function Known(s: State): set<Ref>
  {
    {s.current} + (set h | h in s.history)
  }

  predicate CanGoBack(s: State, back: nat)
  {
    1 <= back <= |s.history|
  }

  function Back(s: State, back: nat): State
    requires CanGoBack(s, back)
  {
    var target := s.history[back - 1];
    State(target, Updated(s.current, s.history, target))
  }

  lemma {:induction false} WithoutOne(history: seq<Ref>, a: Ref, b: Ref)
    requires Distinct(history) && b !in history
    ensures Distinct(Without(history, a, b))
    ensures |Without(history, a, b)| == if a in history then |history| - 1 else |history|
  {
    if history != [] {
      var rest := history[1..];
      assert forall i | 0 <= i < |rest| :: rest[i] == history[i + 1];
      WithoutOne(rest, a, b);
      assert history[0] !in rest && history[0] in history;
      assert forall h | h in rest :: h in history;
    }
  }

  // Removing what is not there changes nothing.
  lemma {:induction false} WithoutNone(history: seq<Ref>, a: Ref, b: Ref)
    requires a !in history && b !in history
    ensures Without(history, a, b) == history
  {
    if history != [] {
      assert history[0] in history && forall h | h in history[1..] :: h in history;
      WithoutNone(history[1..], a, b);
    }
  }

  // A generation rollback keeps the history tidy and puts the image just
  // displaced at its head; it loses no image exactly when the history holds at
  // most twenty.
  lemma BackConserves(s: State, back: nat)
    requires Tidy(s) && CanGoBack(s, back)
    ensures Tidy(Back(s, back))
    ensures Back(s, back).history != [] && Back(s, back).history[0] == s.current
    ensures Known(Back(s, back)) == Known(s) <==> |s.history| <= 20
  {
    var target := s.history[back - 1];
    var kept := Without(s.history, target, s.current);
    WithoutOne(s.history, target, s.current);
    var full := [s.current] + kept;
    assert target in s.history && target != s.current;
    assert |full| == |s.history| && Distinct(full);
    var t := Back(s, back);
    if |s.history| <= MAX_HISTORY {
      assert t.history == full;
    } else {
      var lost := full[MAX_HISTORY];
      assert lost in kept && lost != target;
      assert lost in Known(s) && lost !in t.history;
    }
  }

  function BackAll(s: State, backs: seq<nat>): Option<State>
    decreases |backs|
  {
    if backs == [] then Some(s)
    else if !CanGoBack(s, backs[0]) then None
    else BackAll(Back(s, backs[0]), backs[1..])
  }

  // Over any sequence of generation rollbacks of a tidy history of at most
  // twenty, the images known stay the same and the history stays tidy.
  lemma {:induction false} RollbacksConserve(s: State, backs: seq<nat>)
    requires Tidy(s) && |s.history| <= 20 && BackAll(s, backs).Some?
    ensures var t := BackAll(s, backs).value; Tidy(t) && Known(t) == Known(s) && |t.history| == |s.history|
    decreases |backs|
  {
    if backs != [] {
      var next := Back(s, backs[0]);
      BackConserves(s, backs[0]);
      WithoutOne(s.history, next.current, s.current);
      RollbacksConserve(next, backs[1..]);
    }
  }

  lemma TwiceRestores(s: State)
    requires Tidy(s) && s.history != [] && |s.history| <= MAX_HISTORY
    ensures CanGoBack(Back(s, 1), 1) && Back(Back(s, 1), 1) == s
  {
    var first, rest := s.history[0], s.history[1..];
    assert s.history == [first] + rest;
    assert forall i | 0 <= i < |rest| :: rest[i] == s.history[i + 1];
    assert s.current !in rest && first !in rest;
    hide Distinct;
    WithoutNone(rest, first, s.current);
    WithoutNone(rest, s.current, first);
    assert Without(s.history, first, s.current) == rest;
    assert ([s.current] + rest)[1..] == rest;
    assert Without([s.current] + rest, s.current, first) == rest;
  }

  // Rolling back one generation twice restores both image and history, exactly
  // when nothing was dropped at the cap.
  lemma TwiceRestoresIff(s: State)
    requires Tidy(s) && s.history != []
    ensures var once := Back(s, 1);
            CanGoBack(once, 1) && (Back(once, 1) == s <==> |s.history| <= 20)
  {
    if |s.history| <= MAX_HISTORY {
      TwiceRestores(s);
    } else {
      BackConserves(s, 1);
      hide Tidy, Known, Without;
      BackConserves(Back(s, 1), 1);
    }
  }
}
