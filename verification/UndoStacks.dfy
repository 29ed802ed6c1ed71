/** Doing with undo (lib/try/try.go). */
module UndoStacks {
  import opened Wrappers

  /** What a routine leaves of the state it works on, and the error it returns. */
  datatype Effect<+S, +E> = Effect(state: S, error: Option<E>)

  /** One step of a business routine: what it does, and the undo it pushes once it succeeded. */
  datatype Action<!S, E> = Action(run: S -> Effect<S, E>, undo: S -> Effect<S, E>)

  datatype Undone<+S, +E> = Undone(state: S, errors: seq<E>)

  /** Running undos from the last pushed to the first, whatever each of them returns. */
  function Unwind<S, E>(undos: seq<S -> Effect<S, E>>, state: S): Undone<S, E> {
    if undos == [] then Undone(state, [])
    else
      var e := undos[|undos| - 1](state);
      var rest := Unwind(undos[..|undos| - 1], e.state);
      Undone(rest.state, (if e.error.Some? then [e.error.value] else []) + rest.errors)
  }

  /** A routine that stops at its first failing step: the undos pushed by then, and the error. */
  datatype Progress<!S, E> = Progress(state: S, pushed: seq<S -> Effect<S, E>>, error: Option<E>)

  function Perform<S, E>(actions: seq<Action<S, E>>, state: S): Progress<S, E> {
    if actions == [] then Progress(state, [], None)
    else
      var before := Perform(actions[..|actions| - 1], state);
      if before.error.Some? then before
      else
        var action := actions[|actions| - 1];
        var e := action.run(before.state);
        Progress(e.state, if e.error.Some? then before.pushed else before.pushed + [action.undo], e.error)
  }

  /** The original error comes first, then one error for each undo that failed. */
  function Done<S, E>(actions: seq<Action<S, E>>, state: S): Undone<S, E> {
    var p := Perform(actions, state);
    if p.error.None? then Undone(p.state, [])
    else var u := Unwind(p.pushed, p.state); Undone(u.state, [p.error.value] + u.errors)
  }

  class UndoStack<!S, E> {
    var undos: seq<S -> Effect<S, E>>

    constructor ()
      ensures undos == []
    {
      undos := [];
    }

    method Push(undo: S -> Effect<S, E>)
      modifies this
      ensures undos == old(undos) + [undo]
    {
      undos := undos + [undo];
    }

    method Undo(state: S) returns (after: S, errors: seq<E>)
      ensures Undone(after, errors) == Unwind(undos, state)
    {
      after, errors := state, [];
      assert undos[..|undos|] == undos;
      var i := |undos|;
      while i > 0
        invariant 0 <= i <= |undos|
        invariant var rest := Unwind(undos[..i], after);
          Unwind(undos, state) == Undone(rest.state, errors + rest.errors)
      {
        i := i - 1;
        assert undos[..i + 1][..i] == undos[..i];
        var e := undos[i](after);
        after := e.state;
        if e.error.Some? {
          errors := errors + [e.error.value];
        }
      }
    }
  }

  /** `Do`, for a routine given as its steps. */
  method Do<S, E>(actions: seq<Action<S, E>>, state: S) returns (after: S, errors: seq<E>)
    ensures Undone(after, errors) == Done(actions, state)
  {
    var stack := new UndoStack<S, E>();
    after, errors := state, [];
    for i := 0 to |actions|
      invariant Perform(actions[..i], state) == Progress(after, stack.undos, None)
      invariant errors == [] && fresh(stack)
    {
      var action := actions[i];
      assert actions[..i + 1][..i] == actions[..i];
      var e := action.run(after);
      after := e.state;
      if e.error.Some? {
        StopsHere(actions, i + 1, state);
        var cleanup;
        after, cleanup := stack.Undo(after);
        errors := [e.error.value] + cleanup;
        return;
      }
      stack.Push(action.undo);
    }
    assert actions[..|actions|] == actions;
  }

  /** What follows a failing step is never run. */
  lemma {:induction false} StopsHere<S, E>(actions: seq<Action<S, E>>, k: nat, state: S)
    requires k <= |actions| && Perform(actions[..k], state).error.Some?
    ensures Perform(actions, state) == Perform(actions[..k], state)
    decreases |actions|
  {
    if k == |actions| {
      assert actions[..k] == actions;
    } else {
      var init := actions[..|actions| - 1];
      assert init[..k] == actions[..k];
      StopsHere(init, k, state);
    }
  }

  /** Undos pushed later run first: unwinding a whole stack unwinds its top, then the rest. */
  lemma {:induction false} UnwindInTwo<S, E>(lower: seq<S -> Effect<S, E>>, upper: seq<S -> Effect<S, E>>, state: S)
    ensures var first := Unwind(upper, state);
      var second := Unwind(lower, first.state);
      Unwind(lower + upper, state) == Undone(second.state, first.errors + second.errors)
    decreases |upper|
  {
    if upper == [] {
      assert lower + upper == lower;
    } else {
      var e := upper[|upper| - 1](state);
      assert (lower + upper)[..|lower + upper| - 1] == lower + upper[..|upper| - 1];
      UnwindInTwo(lower, upper[..|upper| - 1], e.state);
      var own := if e.error.Some? then [e.error.value] else [];
      var first := Unwind(upper[..|upper| - 1], e.state);
      var second := Unwind(lower, first.state);
      assert own + (first.errors + second.errors) == (own + first.errors) + second.errors;
    }
  }

  /** An undo that also writes its number, and the error it returned, on a log. */
  function Traced<S, E>(undo: S -> Effect<S, E>, k: nat)
    : ((S, seq<(nat, Option<E>)>)) -> Effect<(S, seq<(nat, Option<E>)>), E>
  {
    (p: (S, seq<(nat, Option<E>)>)) => var e := undo(p.0); Effect((e.state, p.1 + [(k, e.error)]), e.error)
  }

  function TracedAll<S, E>(undos: seq<S -> Effect<S, E>>)
    : seq<((S, seq<(nat, Option<E>)>)) -> Effect<(S, seq<(nat, Option<E>)>), E>>
  {
    seq(|undos|, k requires 0 <= k < |undos| => Traced(undos[k], k))
  }

  /** The log numbers the undos from the last pushed down to the first. */
  predicate CountsDown<E>(log: seq<(nat, Option<E>)>, n: nat) {
    |log| == n && forall i :: 0 <= i < n ==> log[i].0 == n - 1 - i
  }

  /** The errors on a log, in order. */
  function Reported<E>(log: seq<(nat, Option<E>)>): seq<E> {
    if log == [] then [] else (if log[0].1.Some? then [log[0].1.value] else []) + Reported(log[1..])
  }

  /** How many undos on a log failed. */
  function Failures<E>(log: seq<(nat, Option<E>)>): nat {
    if log == [] then 0 else (if log[0].1.Some? then 1 else 0) + Failures(log[1..])
  }

  lemma {:induction false} OneErrorEach<E>(log: seq<(nat, Option<E>)>)
    ensures |Reported(log)| == Failures(log)
  {
    if log != [] {
      OneErrorEach(log[1..]);
    }
  }

  /**
   * Whatever the undos do and whichever of them fail, every pushed one runs exactly once, in
   * reverse order of pushing; and each that fails is reported, in the order they ran.
   */
  lemma {:induction false} EachRunsOnceInReverse<S, E>(undos: seq<S -> Effect<S, E>>, state: S,
                                                      before: seq<(nat, Option<E>)>)
    ensures var u, traced := Unwind(undos, state), Unwind(TracedAll(undos), (state, before));
      && traced.state.0 == u.state && traced.errors == u.errors
      && before <= traced.state.1
      && var log := traced.state.1[|before|..];
      CountsDown(log, |undos|) && u.errors == Reported(log) && |u.errors| == Failures(log)
    decreases |undos|
  {
    if undos == [] {
      assert TracedAll(undos) == [];
      assert before[|before|..] == [];
    } else {
      var n := |undos| - 1;
      assert TracedAll(undos)[..n] == TracedAll(undos[..n]);
      var e := undos[n](state);
      var first := [(n, e.error)];
      EachRunsOnceInReverse(undos[..n], e.state, before + first);
      var whole := Unwind(TracedAll(undos), (state, before)).state.1;
      assert whole[|before|..] == first + whole[|before + first|..];
      assert (first + whole[|before + first|..])[1..] == whole[|before + first|..];
      OneErrorEach(whole[|before|..]);
    }
  }

  /** Failing leaves the state alone, and the undo takes back exactly what success did. */
  ghost predicate Reversible<S(!new), E>(action: Action<S, E>) {
    forall s :: var e := action.run(s);
      if e.error.Some? then e.state == s else action.undo(e.state) == Effect(s, None)
  }

  lemma {:induction false} UnwindTakesBack<S(!new), E>(actions: seq<Action<S, E>>, state: S)
    requires forall i :: 0 <= i < |actions| ==> Reversible(actions[i])
    ensures var p := Perform(actions, state); Unwind(p.pushed, p.state) == Undone(state, [])
  {
    if actions != [] {
      var init, action := actions[..|actions| - 1], actions[|actions| - 1];
      var before := Perform(init, state);
      UnwindTakesBack(init, state);
      if before.error.None? {
        assert Reversible(action);
        var e := action.run(before.state);
        if e.error.None? {
          UnwindInTwo(before.pushed, [action.undo], e.state);
          assert Unwind([action.undo], e.state).state == before.state by {
            assert [action.undo][..0] == [];
          }
        }
      }
    }
  }

  /** A routine of reversible steps that fails anywhere leaves the state it started from. */
  lemma DoRestores<S(!new), E>(actions: seq<Action<S, E>>, state: S)
    requires forall i :: 0 <= i < |actions| ==> Reversible(actions[i])
    ensures var p, d := Perform(actions, state), Done(actions, state);
      if p.error.Some? then d == Undone(state, [p.error.value]) else d == Undone(p.state, [])
  {
    UnwindTakesBack(actions, state);
  }

  /**
   * A failing routine, whatever its undos do, runs the undo of every step it had done, once and
   * in reverse; its own error is reported first, then one error for each undo that failed.
   */
  lemma DoReports<S, E>(actions: seq<Action<S, E>>, state: S)
    ensures var p, d := Perform(actions, state), Done(actions, state);
      p.error.Some? ==>
        var traced := Unwind(TracedAll(p.pushed), (p.state, []));
        && CountsDown(traced.state.1, |p.pushed|) && d.state == traced.state.0
        && d.errors == [p.error.value] + Reported(traced.state.1)
  {
    var p := Perform(actions, state);
    EachRunsOnceInReverse(p.pushed, p.state, []);
    var log := Unwind(TracedAll(p.pushed), (p.state, [])).state.1;
    assert log[0..] == log;
  }
}
