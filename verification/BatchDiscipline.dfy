/**
 How much the batch writer's guarantees depend on its caller: a `start` keeps order and
 drain for good if and only if no `stop` is under way at that moment.
 */
module BatchDiscipline {
  import opened Collections
  import opened BatchProtocol
  import opened BatchDrain

  /** Once a `stop` has returned with nothing added since its drain began, nothing is buffered or in flight. */
  ghost predicate DrainsCompletely<T>(s: State<T>) {
    forall p :: 0 <= p < |s.procs| && s.procs[p] == StopReturned(|s.added|) ==>
      s.buffer == [] && forall k :: 0 <= k < |s.outcome| ==> !s.outcome[k].InFlight?
  }

  // ---- whatever a disciplined caller does next ---------------------------------------

  ghost predicate StaysInOrder<T(!new)>(maxSize: int, es: seq<Event<T>>) {
    forall full: seq<Event<T>> | es <= full && DisciplinedSince(maxSize, full, |es|) :: InOrder(Run(maxSize, full))
  }

  ghost predicate StaysLandedInOrder<T(!new)>(maxSize: int, es: seq<Event<T>>) {
    forall full: seq<Event<T>> | es <= full && DisciplinedSince(maxSize, full, |es|) :: LandedInOrder(Run(maxSize, full))
  }

  ghost predicate StaysDrained<T(!new)>(maxSize: int, es: seq<Event<T>>) {
    forall full: seq<Event<T>> | es <= full && DisciplinedSince(maxSize, full, |es|) :: DrainsCompletely(Run(maxSize, full))
  }

  /** Discipline up to a point and from that point on is discipline throughout. */
  lemma {:induction false} DisciplineJoins<T>(maxSize: int, es: seq<Event<T>>, full: seq<Event<T>>)
    requires DisciplinedRun(maxSize, es) && es <= full && DisciplinedSince(maxSize, full, |es|)
    ensures DisciplinedRun(maxSize, full)
    decreases |full|
  {
    if |full| == |es| {
      assert full == es;
    } else {
      DisciplineJoins(maxSize, es, full[..|full| - 1]);
    }
  }

  // ---- driving coroutines ---------------------------------------------------------------

  /** A running loop that finds the buffer nonempty ends up awaiting the sink. */
  lemma {:induction false} DriveLoop<T>(maxSize: int, es: seq<Event<T>>, n: nat, l: nat) returns (full: seq<Event<T>>)
    requires n <= |es| && DisciplinedSince(maxSize, es, n)
    requires var s := Run(maxSize, es);
             && s.running && s.buffer != [] && l < |s.procs|
             && (s.procs[l].LoopTop? || s.procs[l].LoopWaiting? || s.procs[l].LoopFlushing?)
    ensures es <= full && DisciplinedSince(maxSize, full, n)
    ensures var s, t := Run(maxSize, es), Run(maxSize, full);
            && t.running && t.task == s.task && |t.procs| == |s.procs| && Holding(t.procs[l]).Some?
            && (forall p :: 0 <= p < |s.procs| && p != l ==> t.procs[p] == s.procs[p])
    decreases match Run(maxSize, es).procs[l] case LoopTop => 2 case LoopWaiting => 1 case _ => 0
  {
    hide Run, DisciplinedSince;
    var pc := Run(maxSize, es).procs[l];
    var next, s := Extend(maxSize, es, Resume(l, true));
    full := next;
    if !pc.LoopFlushing? {
      full := DriveLoop(maxSize, next, n, l);
    }
  }

  /** Beside a running loop that is still at its top, another coroutine holds a batch. */
  ghost predicate OldHolds<T>(s: State<T>, old': nat, fresh': nat) {
    && old' < |s.procs| && fresh' < |s.procs| && old' != fresh' && s.running
    && Holding(s.procs[old']).Some? && s.procs[fresh'] == LoopTop
    && (s.task == Some(fresh') || s.task == None)
  }

  /** A loop that a `stop` was waiting for is revived, or has already let that `stop` go on. */
  lemma JoiningHolds<T>(maxSize: int, es: seq<Event<T>>, n: nat, l: nat, k: nat, fresh': nat, x: T)
    returns (full: seq<Event<T>>, old': nat)
    requires n <= |es| && DisciplinedSince(maxSize, es, n)
    requires var s := Run(maxSize, es);
             && s.running && s.task == Some(fresh') && l < |s.procs| && k < |s.procs| && fresh' < |s.procs|
             && l != k && l != fresh' && k != fresh'
             && LoopPc(s.procs[l]) && s.procs[k] == StopJoining(Some(l)) && s.procs[fresh'] == LoopTop
    ensures es <= full && DisciplinedSince(maxSize, full, n) && OldHolds(Run(maxSize, full), old', fresh')
  {
    hide Run, DisciplinedSince;
    var s := Run(maxSize, es);
    full, old' := es, l;
    if !s.procs[l].LoopSinking? {
      full, s := Extend(maxSize, es, AddMany([x]));
      if s.procs[l].LoopExited? {
        old' := k;
        full, s := Extend(maxSize, full, Resume(k, true));
        full, s := Extend(maxSize, full, Resume(k, true));
      } else {
        full := DriveLoop(maxSize, full, n, l);
      }
    }
  }

  /** A `stop` in its final drain takes what was added meanwhile. */
  lemma FinishingHolds<T>(maxSize: int, es: seq<Event<T>>, n: nat, k: nat, fresh': nat, x: T)
    returns (full: seq<Event<T>>)
    requires n <= |es| && DisciplinedSince(maxSize, es, n)
    requires var s := Run(maxSize, es);
             && s.running && s.task == Some(fresh') && k < |s.procs| && fresh' < |s.procs| && k != fresh'
             && (s.procs[k].StopDraining? || s.procs[k].StopSinking?) && s.procs[fresh'] == LoopTop
    ensures es <= full && DisciplinedSince(maxSize, full, n) && OldHolds(Run(maxSize, full), k, fresh')
  {
    hide Run, DisciplinedSince;
    var s := Run(maxSize, es);
    full := es;
    if s.procs[k].StopDraining? {
      full, s := Extend(maxSize, full, AddMany([x]));
      full, s := Extend(maxSize, full, Resume(k, true));
    }
  }

  lemma NothingUndisciplinedYet<T>(maxSize: int, es: seq<Event<T>>)
    ensures DisciplinedSince(maxSize, es, |es|)
  {
  }

  /** After an undisciplined start, some coroutine beside the new loop comes to hold a batch. */
  lemma OldSideHolds<T>(maxSize: int, es: seq<Event<T>>, ph: Phase, x: T)
    returns (full: seq<Event<T>>, old': nat, fresh': nat)
    requires InPhase(Run(maxSize, es), ph) && !Disciplined(Run(maxSize, es), Event.Start)
    ensures es + [Event.Start] <= full && DisciplinedSince(maxSize, full, |es| + 1)
    ensures OldHolds(Run(maxSize, full), old', fresh')
  {
    hide Run, DisciplinedSince, OldHolds;
    var s := Run(maxSize, es);
    var p :| 0 <= p < |s.procs| && StopActive(s.procs[p]);
    assert ph.Joining? || ph.Finishing?;
    fresh' := |s.procs|;
    full, s := Extend(maxSize, es, Event.Start);
    NothingUndisciplinedYet(maxSize, full);
    if ph.Joining? {
      full, old' := JoiningHolds(maxSize, full, |full|, ph.loop, ph.stop, fresh', x);
    } else {
      old' := ph.stop;
      full := FinishingHolds(maxSize, full, |full|, ph.stop, fresh', x);
    }
  }

  // ---- what then goes wrong ----------------------------------------------------------------

  /** The sink finishes the batch a coroutine holds. */
  lemma HeldLands<T>(s: State<T>, pid: nat)
    requires pid < |s.procs| && Holding(s.procs[pid]).Some? && Holding(s.procs[pid]).value < |s.outcome|
    ensures var t := Step(s, Resume(pid, true));
            && t.landed == s.landed + [Holding(s.procs[pid]).value]
            && |t.procs| == |s.procs| && |t.outcome| == |s.outcome|
            && (forall p :: 0 <= p < |s.procs| && p != pid ==> t.procs[p] == s.procs[p])
  {
  }

  /** Two coroutines hold a batch each, and the later batch lands first. */
  lemma LandsOutOfOrder<T>(maxSize: int, es: seq<Event<T>>, n: nat, p: nat, q: nat) returns (full: seq<Event<T>>)
    requires n <= |es| && DisciplinedSince(maxSize, es, n)
    requires var s := Run(maxSize, es);
             && p < |s.procs| && q < |s.procs| && p != q
             && Holding(s.procs[p]).Some? && Holding(s.procs[q]).Some?
    ensures es <= full && DisciplinedSince(maxSize, full, n) && !LandedInOrder(Run(maxSize, full))
  {
    hide Run, DisciplinedSince, Step, Conserved, Counted, Announced, Drained;
    RunInvariant(maxSize, es);
    var s := Run(maxSize, es);
    var a, b := Holding(s.procs[p]).value, Holding(s.procs[q]).value;
    assert HeldAt(s, p, a) && HeldAt(s, q, b);
    var late, early := if a < b then q else p, if a < b then p else q;
    var landed := s.landed;
    HeldLands(s, late);
    full, s := Extend(maxSize, es, Resume(late, true));
    HeldLands(s, early);
    full, s := Extend(maxSize, full, Resume(early, true));
    assert s.landed[|landed|] > s.landed[|landed| + 1];
  }

  lemma BreaksOrder<T>(maxSize: int, es: seq<Event<T>>, ph: Phase, x: T) returns (full: seq<Event<T>>)
    requires InPhase(Run(maxSize, es), ph) && !Disciplined(Run(maxSize, es), Event.Start)
    ensures es + [Event.Start] <= full && DisciplinedSince(maxSize, full, |es| + 1)
    ensures !LandedInOrder(Run(maxSize, full))
  {
    hide Run, DisciplinedSince, InPhase, LandedInOrder;
    var old', fresh';
    full, old', fresh' := OldSideHolds(maxSize, es, ph, x);
    var s;
    full, s := Extend(maxSize, full, AddMany([x]));
    full := DriveLoop(maxSize, full, |es| + 1, fresh');
    full := LandsOutOfOrder(maxSize, full, |es| + 1, old', fresh');
  }

  /** A second `stop` does not wait for the old side, and drains and returns at once. */
  lemma SecondStopReturns<T>(maxSize: int, es: seq<Event<T>>, n: nat, old': nat, fresh': nat)
    returns (full: seq<Event<T>>, m: nat)
    requires n <= |es| && DisciplinedSince(maxSize, es, n) && OldHolds(Run(maxSize, es), old', fresh')
    ensures es <= full && DisciplinedSince(maxSize, full, n)
    ensures var s, t := Run(maxSize, es), Run(maxSize, full);
            && m < |t.procs| && old' < |t.procs| && t.procs[m] == StopReturned(|t.added|)
            && t.procs[old'] == s.procs[old']
  {
    hide Run, DisciplinedSince, Count, Flatten;
    var s;
    m := |Run(maxSize, es).procs|;
    full, s := Extend(maxSize, es, Event.Stop);
    full, s := Extend(maxSize, full, Resume(fresh', true));
    full, s := Extend(maxSize, full, Resume(m, true));
    full, s := Extend(maxSize, full, Resume(m, true));
    if s.procs[m].StopSinking? {
      full, s := Extend(maxSize, full, Resume(m, true));
    }
  }

  /** So that `stop` has returned while the old side still awaits the sink. */
  lemma BreaksDrain<T>(maxSize: int, es: seq<Event<T>>, ph: Phase, x: T) returns (full: seq<Event<T>>)
    requires InPhase(Run(maxSize, es), ph) && !Disciplined(Run(maxSize, es), Event.Start)
    ensures es + [Event.Start] <= full && DisciplinedSince(maxSize, full, |es| + 1)
    ensures !DrainsCompletely(Run(maxSize, full))
  {
    hide Run, DisciplinedSince, InPhase, Conserved, Counted, Announced, Drained;
    var old', fresh', m;
    full, old', fresh' := OldSideHolds(maxSize, es, ph, x);
    full, m := SecondStopReturns(maxSize, full, |es| + 1, old', fresh');
    RunInvariant(maxSize, full);
    var s := Run(maxSize, full);
    assert s.procs[m] == StopReturned(|s.added|);
    assert HeldAt(s, old', Holding(s.procs[old']).value);
  }

  // ---- the exact condition ------------------------------------------------------------------

  lemma DrainedRun<T>(maxSize: int, es: seq<Event<T>>)
    requires DisciplinedRun(maxSize, es)
    ensures DrainsCompletely(Run(maxSize, es))
  {
    hide Run, DisciplinedSince;
    var s := Run(maxSize, es);
    forall p | 0 <= p < |s.procs| && s.procs[p] == StopReturned(|s.added|)
      ensures s.buffer == [] && forall k :: 0 <= k < |s.outcome| ==> !s.outcome[k].InFlight?
    {
      StopDrains(maxSize, es, p);
    }
  }

  lemma DisciplinedStartIsSafe<T(!new)>(maxSize: int, es: seq<Event<T>>)
    requires DisciplinedRun(maxSize, es) && Disciplined(Run(maxSize, es), Event.Start)
    ensures var after := es + [Event.Start];
            StaysInOrder(maxSize, after) && StaysLandedInOrder(maxSize, after) && StaysDrained(maxSize, after)
  {
    hide Run, DisciplinedSince;
    var after, s := Extend(maxSize, es, Event.Start);
    forall full: seq<Event<T>> | after <= full && DisciplinedSince(maxSize, full, |after|)
      ensures InOrder(Run(maxSize, full)) && DrainsCompletely(Run(maxSize, full))
    {
      DisciplineJoins(maxSize, after, full);
      RunInOrder(maxSize, full);
      DrainedRun(maxSize, full);
    }
  }

  /**
   In any state a disciplined caller can reach, a `start` leaves order and drain safe
   for good, whatever such a caller does next, if and only if no `stop` is under way.
   */
  lemma StartIsSafeIff<T(!new)>(maxSize: int, es: seq<Event<T>>, x: T)
    requires DisciplinedRun(maxSize, es)
    ensures var after := es + [Event.Start];
            && (Disciplined(Run(maxSize, es), Event.Start) <==> StaysInOrder(maxSize, after))
            && (Disciplined(Run(maxSize, es), Event.Start) <==> StaysLandedInOrder(maxSize, after))
            && (Disciplined(Run(maxSize, es), Event.Start) <==> StaysDrained(maxSize, after))
  {
    hide Run, DisciplinedSince, InPhase;
    if Disciplined(Run(maxSize, es), Event.Start) {
      DisciplinedStartIsSafe(maxSize, es);
    } else {
      var ph := RunPhase(maxSize, es);
      var full := BreaksOrder(maxSize, es, ph, x);
      var full' := BreaksDrain(maxSize, es, ph, x);
    }
  }
}
