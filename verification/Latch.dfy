/**
 The edge detector behind every signal and event of the analytics. A detector is
 shown a run of decisions, some of them undecided, and remembers only the last
 decisive one; it fires when a decisive, non-idle decision differs from that.
 */
module Latch {
  import opened Collections

  /** The last decisive decision of a run, or `idle` when there is none. */
  function LastDecisive<C>(run: seq<Option<C>>, idle: C): C {
    if run == [] then idle
    else if run[|run| - 1].Some? then run[|run| - 1].value
    else LastDecisive(run[..|run| - 1], idle)
  }

  /** A decision fires after the earlier ones. */
  predicate Fired<C(==)>(earlier: seq<Option<C>>, d: Option<C>, idle: C) {
    d.Some? && d.value != idle && d.value != LastDecisive(earlier, idle)
  }

  /** Position `i` of the run fires. */
  predicate Fires<C(==)>(run: seq<Option<C>>, idle: C, i: nat)
    requires i < |run|
  {
    Fired(run[..i], run[i], idle)
  }

  lemma LastDecisiveAppend<C>(run: seq<Option<C>>, d: Option<C>, idle: C)
    ensures LastDecisive(run + [d], idle) == if d.Some? then d.value else LastDecisive(run, idle)
  {
    assert (run + [d])[..|run|] == run;
  }

  predicate Undecided<C>(run: seq<Option<C>>) {
    forall k :: 0 <= k < |run| ==> run[k].None?
  }

  /** `c` was decided at some position, and nothing was decided after it. */
  predicate DecidedLast<C(==)>(run: seq<Option<C>>, c: C) {
    exists j :: 0 <= j < |run| && run[j] == Some(c) && forall k :: j < k < |run| ==> run[k].None?
  }

  lemma DecidedLastAppend<C>(front: seq<Option<C>>, d: Option<C>, c: C)
    ensures DecidedLast(front + [d], c) <==> d == Some(c) || (d.None? && DecidedLast(front, c))
  {
    var run := front + [d];
    assert run[|front|] == d && forall k :: 0 <= k < |front| ==> run[k] == front[k];
    if d.None? && DecidedLast(front, c) {
      var j :| 0 <= j < |front| && front[j] == Some(c) && forall k :: j < k < |front| ==> front[k].None?;
      assert run[j] == Some(c);
    }
  }

  lemma UndecidedAppend<C>(front: seq<Option<C>>, d: Option<C>)
    ensures Undecided(front + [d]) <==> Undecided(front) && d.None?
  {
    assert (front + [d])[|front|] == d && forall k :: 0 <= k < |front| ==> (front + [d])[k] == front[k];
  }

  /** What the remembered value means: the last decision that was not undecided. */
  lemma {:induction false} LastDecisiveMeaning<C>(run: seq<Option<C>>, idle: C, c: C)
    ensures LastDecisive(run, idle) == c <==> DecidedLast(run, c) || (c == idle && Undecided(run))
  {
    if run != [] {
      hide DecidedLast, Undecided;
      var front, d := run[..|run| - 1], run[|run| - 1];
      LastDecisiveMeaning(front, idle, c);
      assert run == front + [d];
      DecidedLastAppend(front, d, c);
      UndecidedAppend(front, d);
    }
  }

  /** Between a firing of `c` and a later state other than `c` lies another decision. */
  lemma {:induction false} StateHeldSince<C>(run: seq<Option<C>>, idle: C, i: nat, j: nat)
    requires i < j <= |run| && run[i].Some?
    requires forall k :: i < k < j ==> run[k].Some? ==> run[k].value == run[i].value
    ensures LastDecisive(run[..j], idle) == run[i].value
    decreases j
  {
    assert run[..j][..j - 1] == run[..j - 1];
    if i < j - 1 && run[j - 1].None? {
      StateHeldSince(run, idle, i, j - 1);
    }
  }

  /** Without an idle decision, the class can only change by firing. */
  lemma {:induction false} NoChangeWithoutFiring<C>(run: seq<Option<C>>, idle: C, i: nat, j: nat)
    requires i < j <= |run| && run[i].Some?
    requires forall k :: i < k < j ==> !Fires(run, idle, k) && run[k] != Some(idle)
    ensures forall k :: i < k < j ==> run[k].Some? ==> run[k].value == run[i].value
    decreases j
  {
    if i < j - 1 {
      NoChangeWithoutFiring(run, idle, i, j - 1);
      StateHeldSince(run, idle, i, j - 1);
      assert !Fires(run, idle, j - 1);
    }
  }

  /**
   Two successive firings of the same class are separated by an idle decision:
   the detector never repeats itself inside one uninterrupted episode.
   */
  lemma SuccessiveFiringsSeparated<C>(run: seq<Option<C>>, idle: C, i: nat, j: nat)
    requires i < j < |run| && Fires(run, idle, i) && Fires(run, idle, j)
    requires run[i] == run[j]
    requires forall k :: i < k < j ==> !Fires(run, idle, k)
    ensures exists k :: i < k < j && run[k] == Some(idle)
  {
    if forall k :: i < k < j ==> run[k] != Some(idle) {
      NoChangeWithoutFiring(run, idle, i, j);
      StateHeldSince(run, idle, i, j);
      assert false;
    }
  }

  /** When the previous decision is decisive, firing is exactly a rising edge. */
  lemma RisingEdge<C>(run: seq<Option<C>>, idle: C, i: nat)
    requires i < |run| && run[i].Some?
    requires i > 0 ==> run[i - 1].Some? || Undecided(run[..i])
    ensures Fires(run, idle, i)
       <==> run[i].value != idle && !(i > 0 && run[i - 1] == run[i])
  {
    LastDecisiveMeaning(run[..i], idle, idle);
    if i > 0 {
      assert run[..i][i - 1] == run[i - 1];
    }
  }

  // ---- one detector per symbol ---------------------------------------------

  /** Each symbol's remembered state is the last decisive entry of its log. */
  ghost predicate Tracks<C>(state: map<int, C>, log: map<int, seq<Option<C>>>, idle: C) {
    forall id: int :: GetOr(state, id, idle) == LastDecisive(GetOr(log, id, []), idle)
  }

  ghost function Logged<C>(log: map<int, seq<Option<C>>>, id: int, d: Option<C>): map<int, seq<Option<C>>> {
    log[id := GetOr(log, id, []) + [d]]
  }

  /** Showing a symbol one more decision: a decisive one is stored, an undecided one changes nothing. */
  lemma TracksStep<C>(state: map<int, C>, log: map<int, seq<Option<C>>>, idle: C, id: int, d: Option<C>)
    requires Tracks(state, log, idle)
    ensures LastDecisive(GetOr(log, id, []), idle) == GetOr(state, id, idle)
    ensures d.Some? ==> Tracks(state[id := d.value], Logged(log, id, d), idle)
    ensures d.None? || d.value == GetOr(state, id, idle) ==> Tracks(state, Logged(log, id, d), idle)
  {
    LastDecisiveAppend(GetOr(log, id, []), d, idle);
    forall k: int
      ensures LastDecisive(GetOr(Logged(log, id, d), k, []), idle)
           == if k == id && d.Some? then d.value else GetOr(state, k, idle)
    {
      assert GetOr(state, k, idle) == LastDecisive(GetOr(log, k, []), idle);
    }
  }
}
