/**
 What the batch writer guarantees when `start` is never called while a `stop` is still
 under way: a single batch in flight, delivery in order, and a complete drain. And what
 happens without that discipline.
 */
module BatchDrain {
  import opened Collections
  import opened BatchProtocol

  predicate StopActive(pc: Pc) {
    pc.StopJoining? || pc.StopDraining? || pc.StopSinking?
  }

  predicate LoopPc(pc: Pc) {
    pc.LoopTop? || pc.LoopWaiting? || pc.LoopFlushing? || pc.LoopSinking? || pc.LoopExited?
  }

  predicate Dead(pc: Pc) {
    pc.LoopExited? || pc.StopReturned?
  }

  /** The caller's discipline: no `start` while a `stop` is under way. */
  predicate Disciplined<T>(s: State<T>, e: Event<T>) {
    e.Start? ==> forall p :: 0 <= p < |s.procs| ==> !StopActive(s.procs[p])
  }

  /** Every event from the `n`-th on is disciplined. */
  predicate DisciplinedSince<T>(maxSize: int, es: seq<Event<T>>, n: nat) {
    || |es| <= n
    || (DisciplinedSince(maxSize, es[..|es| - 1], n) && Disciplined(Run(maxSize, es[..|es| - 1]), es[|es| - 1]))
  }

  predicate DisciplinedRun<T>(maxSize: int, es: seq<Event<T>>) {
    DisciplinedSince(maxSize, es, 0)
  }

  // ---- the life cycle ---------------------------------------------------------------

  /** Which coroutines are alive. */
  datatype Phase = Idle | Up(loop: nat) | Joining(loop: nat, stop: nat) | Finishing(stop: nat)

  ghost predicate OthersDead<T>(s: State<T>, alive: set<nat>) {
    forall p: nat :: p < |s.procs| && p !in alive ==> Dead(s.procs[p])
  }

  ghost predicate InPhase<T>(s: State<T>, ph: Phase) {
    match ph
    case Idle => !s.running && OthersDead(s, {})
    case Up(l) =>
      && s.running && s.task == Some(l) && l < |s.procs|
      && LoopPc(s.procs[l]) && !s.procs[l].LoopExited? && OthersDead(s, {l})
    case Joining(l, k) =>
      && !s.running && s.task == Some(l) && l < |s.procs| && k < |s.procs| && l != k
      && LoopPc(s.procs[l]) && s.procs[k] == StopJoining(Some(l)) && OthersDead(s, {l, k})
    case Finishing(k) =>
      && !s.running && k < |s.procs| && (s.procs[k].StopDraining? || s.procs[k].StopSinking?) && OthersDead(s, {k})
  }

  /** The only coroutine that can be holding a batch. */
  function Holder(ph: Phase): Option<nat> {
    match ph
    case Idle => None
    case Up(l) => Some(l)
    case Joining(l, _) => Some(l)
    case Finishing(k) => Some(k)
  }

  lemma StartPhase<T>(s: State<T>, ph: Phase) returns (next: Phase)
    requires InPhase(s, ph) && Disciplined(s, Start)
    ensures InPhase(Step(s, Start), next)
  {
    if s.running {
      next := ph;
    } else {
      next := Up(|s.procs|);
      assert ph.Joining? ==> StopActive(s.procs[ph.stop]);
      assert ph.Finishing? ==> StopActive(s.procs[ph.stop]);
    }
  }

  lemma StopPhase<T>(s: State<T>, ph: Phase) returns (next: Phase)
    requires InPhase(s, ph)
    ensures InPhase(Step(s, Stop), next)
  {
    next := if s.running then Joining(ph.loop, |s.procs|) else ph;
  }

  /** The steps that take or finish a batch touch no coroutine but their own. */
  lemma ResumedOthers<T>(s: State<T>, pid: nat, ok: bool)
    requires pid < |s.procs|
    ensures var t := Resumed(s, pid, ok);
            && t.running == s.running && |t.procs| == |s.procs|
            && (forall p :: 0 <= p < |s.procs| && p != pid ==> t.procs[p] == s.procs[p])
            && (Dead(s.procs[pid]) ==> t == s)
            && (LoopPc(s.procs[pid]) ==> LoopPc(t.procs[pid]) && t.task == s.task)
            && (LoopPc(s.procs[pid]) && s.running && !s.procs[pid].LoopExited? ==> !t.procs[pid].LoopExited?)
            && (s.procs[pid].StopJoining? ==>
                  || t == s
                  || (t.procs[pid].StopDraining?
                      && (s.procs[pid].task.Some? ==>
                            s.procs[pid].task.value < |s.procs| && s.procs[s.procs[pid].task.value].LoopExited?)))
            && (s.procs[pid].StopDraining? || s.procs[pid].StopSinking? ==>
                  t.procs[pid].StopSinking? || t.procs[pid].StopReturned?)
  {
    hide Flatten;
    match s.procs[pid]
    case LoopTop =>
    case LoopWaiting =>
    case LoopFlushing =>
    case LoopSinking(k) =>
    case LoopExited =>
    case StopJoining(task) =>
    case StopDraining =>
    case StopSinking(k, seen) =>
    case StopReturned(seen) =>
  }

  lemma ResumePhase<T>(s: State<T>, pid: nat, ok: bool, ph: Phase) returns (next: Phase)
    requires InPhase(s, ph) && pid < |s.procs|
    ensures InPhase(Resumed(s, pid, ok), next)
  {
    hide Resumed;
    next := ph;
    var t := Resumed(s, pid, ok);
    ResumedOthers(s, pid, ok);
    match ph
    case Idle =>
    case Up(l) =>
    case Joining(l, k) =>
      if pid == k && t != s {
        next := Finishing(k);
      }
    case Finishing(k) =>
      if pid == k && t.procs[k].StopReturned? {
        next := Idle;
      }
  }

  lemma PhaseStep<T>(s: State<T>, e: Event<T>, ph: Phase) returns (next: Phase)
    requires InPhase(s, ph) && Disciplined(s, e)
    ensures InPhase(Step(s, e), next)
  {
    next := ph;
    match e
    case Start => next := StartPhase(s, ph);
    case Stop => next := StopPhase(s, ph);
    case AddMany(_) =>
    case Resume(pid, ok) =>
      if pid < |s.procs| {
        next := ResumePhase(s, pid, ok, ph);
      }
  }

  lemma {:induction false} RunPhase<T>(maxSize: int, es: seq<Event<T>>) returns (ph: Phase)
    requires DisciplinedRun(maxSize, es)
    ensures InPhase(Run(maxSize, es), ph)
  {
    if es == [] {
      ph := Idle;
    } else {
      var before := RunPhase(maxSize, es[..|es| - 1]);
      ph := PhaseStep(Run(maxSize, es[..|es| - 1]), es[|es| - 1], before);
    }
  }

  // ---- order ----------------------------------------------------------------------------

  /** The delivered batches landed in the order in which they were taken. */
  predicate LandedInOrder<T>(s: State<T>) {
    forall i, j :: 0 <= i < j < |s.landed| ==> s.landed[i] < s.landed[j]
  }

  /** Only the last batch taken can be in flight, so the delivered ones landed in order. */
  ghost predicate InOrder<T>(s: State<T>) {
    && (forall k :: 0 <= k < |s.outcome| && s.outcome[k].InFlight? ==> k == |s.taken| - 1)
    && LandedInOrder(s)
  }

  /** Whatever is in flight was added after every finished drain. */
  ghost predicate DrainedFirst<T>(s: State<T>) {
    forall p, k :: 0 <= p < |s.procs| && 0 <= k < |s.outcome| && k <= |s.taken| ==>
      s.procs[p].StopReturned? && s.outcome[k].InFlight? ==> |Flatten(s.taken[..k])| >= s.procs[p].seen
  }

  lemma InFlightIsHeld<T>(s: State<T>, k: nat)
    requires Held(s) && k < |s.outcome|
    ensures s.outcome[k].InFlight? ==>
              s.outcome[k].pid < |s.procs| && Holding(s.procs[s.outcome[k].pid]) == Some(k)
  {
    if s.outcome[k].InFlight? {
      assert HeldAt(s, s.outcome[k].pid, k);
    }
  }

  lemma NobodyHolds<T>(s: State<T>, ph: Phase)
    requires Inv(s) && InPhase(s, ph)
    requires ph.Idle? || (Holder(ph).value < |s.procs| && Holding(s.procs[Holder(ph).value]).None?)
    ensures forall k :: 0 <= k < |s.outcome| ==> !s.outcome[k].InFlight?
  {
    forall k | 0 <= k < |s.outcome|
      ensures !s.outcome[k].InFlight?
    {
      InFlightIsHeld(s, k);
    }
  }

  lemma CompletionKeepsOrder<T>(s: State<T>, pid: nat, ok: bool, ph: Phase)
    requires Inv(s) && InPhase(s, ph) && InOrder(s) && DrainedFirst(s)
    requires pid < |s.procs| && Holding(s.procs[pid]).Some?
    ensures InOrder(Resumed(s, pid, ok)) && DrainedFirst(Resumed(s, pid, ok))
  {
    var k := Holding(s.procs[pid]).value;
    assert HeldAt(s, pid, k);
    assert k == |s.taken| - 1;
    assert forall j: nat :: j in s.landed ==> j < k;
    assert forall i :: 0 <= i < |s.landed| ==> s.landed[i] in s.landed;
    var t := Resumed(s, pid, ok);
    assert forall j :: 0 <= j < |t.outcome| ==> !t.outcome[j].InFlight?;
  }

  lemma TakingKeepsOrder<T>(s: State<T>, pid: nat, ok: bool, ph: Phase)
    requires Inv(s) && InPhase(s, ph) && InOrder(s) && DrainedFirst(s)
    requires pid < |s.procs| && s.buffer != [] && (s.procs[pid].LoopFlushing? || s.procs[pid].StopDraining?)
    ensures InOrder(Resumed(s, pid, ok)) && DrainedFirst(Resumed(s, pid, ok))
  {
    assert Holder(ph) == Some(pid);
    NobodyHolds(s, ph);
    var t := Resumed(s, pid, ok);
    assert t.taken[..|s.taken|] == s.taken;
    assert |s.added| == |Flatten(s.taken)| + |s.buffer|;
  }

  lemma MovingKeepsOrder<T>(s: State<T>, pid: nat, ok: bool, ph: Phase)
    requires Inv(s) && InPhase(s, ph) && InOrder(s) && DrainedFirst(s)
    requires pid < |s.procs| && Holding(s.procs[pid]).None?
    requires s.buffer == [] || !(s.procs[pid].LoopFlushing? || s.procs[pid].StopDraining?)
    ensures InOrder(Resumed(s, pid, ok)) && DrainedFirst(Resumed(s, pid, ok))
  {
    hide Flatten, Count, Counted, Announced;
    if s.procs[pid].StopDraining? {
      assert Holder(ph) == Some(pid);
      NobodyHolds(s, ph);
    }
  }

  lemma OrderStep<T>(s: State<T>, e: Event<T>, ph: Phase)
    requires Inv(s) && InPhase(s, ph) && InOrder(s) && DrainedFirst(s)
    ensures InOrder(Step(s, e)) && DrainedFirst(Step(s, e))
  {
    match e
    case Resume(pid, ok) =>
      if pid < |s.procs| {
        if Holding(s.procs[pid]).Some? {
          CompletionKeepsOrder(s, pid, ok, ph);
        } else if s.buffer != [] && (s.procs[pid].LoopFlushing? || s.procs[pid].StopDraining?) {
          TakingKeepsOrder(s, pid, ok, ph);
        } else {
          MovingKeepsOrder(s, pid, ok, ph);
        }
      }
    case _ =>
  }

  lemma {:induction false} RunInOrder<T>(maxSize: int, es: seq<Event<T>>)
    requires DisciplinedRun(maxSize, es)
    ensures InOrder(Run(maxSize, es)) && DrainedFirst(Run(maxSize, es))
  {
    if es != [] {
      var front := es[..|es| - 1];
      RunInOrder(maxSize, front);
      RunInvariant(maxSize, front);
      var ph := RunPhase(maxSize, front);
      OrderStep(Run(maxSize, front), es[|es| - 1], ph);
    }
  }

  // ---- the drain ----------------------------------------------------------------------------

  lemma {:induction false} CountsAddUp(outcome: seq<Outcome>)
    requires forall k :: 0 <= k < |outcome| ==> !outcome[k].InFlight?
    ensures Count(outcome, Delivered) + Count(outcome, Failed) == |outcome|
  {
    if outcome != [] {
      CountsAddUp(outcome[..|outcome| - 1]);
    }
  }

  /**
   Once `stop` has returned and nothing was added since its final drain began, the
   buffer is empty and every batch ever taken has been delivered or has failed.
   */
  lemma StopDrains<T>(maxSize: int, es: seq<Event<T>>, p: nat)
    requires DisciplinedRun(maxSize, es)
    requires p < |Run(maxSize, es).procs|
    requires Run(maxSize, es).procs[p] == StopReturned(|Run(maxSize, es).added|)
    ensures var s := Run(maxSize, es);
            && s.buffer == [] && s.added == Flatten(s.taken)
            && (forall k :: 0 <= k < |s.outcome| ==> !s.outcome[k].InFlight?)
            && s.flushCount + s.errorCount == |s.taken|
  {
    var s := Run(maxSize, es);
    RunInvariant(maxSize, es);
    RunInOrder(maxSize, es);
    if s.taken != [] {
      var n := |s.taken| - 1;
      assert |Flatten(s.taken)| == |Flatten(s.taken[..n])| + |s.taken[n]|;
      assert |Flatten(s.taken[..n])| < s.procs[p].seen;
    }
    CountsAddUp(s.outcome);
  }

  /** The delivered batches, in the order the sink finished them. */
  function Landed<T>(s: State<T>, order: seq<nat>): seq<seq<T>>
    requires forall i :: 0 <= i < |order| ==> order[i] < |s.taken|
  {
    seq(|order|, i requires 0 <= i < |order| => s.taken[order[i]])
  }

  lemma {:induction false} AtLeastIndex(xs: seq<nat>, i: nat)
    requires i < |xs| && forall a, b :: 0 <= a < b < |xs| ==> xs[a] < xs[b]
    ensures xs[i] >= i
  {
    if i > 0 {
      AtLeastIndex(xs, i - 1);
      assert xs[i - 1] < xs[i];
    }
  }

  lemma {:induction false} AtMostIndex(xs: seq<nat>, n: nat, i: nat)
    requires |xs| == n && i < n && (forall k :: 0 <= k < n ==> xs[k] < n)
    requires forall a, b :: 0 <= a < b < n ==> xs[a] < xs[b]
    ensures xs[i] <= i
    decreases n - i
  {
    if i + 1 < n {
      AtMostIndex(xs, n, i + 1);
      assert xs[i] < xs[i + 1];
    }
  }

  lemma {:induction false} AscendingIsIdentity(xs: seq<nat>, n: nat, i: nat)
    requires |xs| == n && i < n && (forall k :: 0 <= k < n ==> xs[k] < n)
    requires forall a, b :: 0 <= a < b < n ==> xs[a] < xs[b]
    ensures xs[i] == i
  {
    AtLeastIndex(xs, i);
    AtMostIndex(xs, n, i);
  }

  lemma LandedIsIdentity<T>(s: State<T>)
    requires Inv(s) && InOrder(s) && |s.landed| == |s.taken|
    ensures forall i :: 0 <= i < |s.landed| ==> s.landed[i] == i
  {
    hide Flatten, Count;
    assert forall i :: 0 <= i < |s.landed| ==> s.landed[i] in s.landed;
    forall i | 0 <= i < |s.landed|
      ensures s.landed[i] == i
    {
      AscendingIsIdentity(s.landed, |s.taken|, i);
    }
  }

  /** If no batch failed, a drained writer has handed the sink everything, in order. */
  lemma DrainedDeliversEverything<T>(maxSize: int, es: seq<Event<T>>, p: nat)
    requires DisciplinedRun(maxSize, es)
    requires p < |Run(maxSize, es).procs|
    requires Run(maxSize, es).procs[p] == StopReturned(|Run(maxSize, es).added|)
    requires Run(maxSize, es).errorCount == 0
    ensures var s := Run(maxSize, es);
            && (forall i :: 0 <= i < |s.landed| ==> s.landed[i] < |s.taken|)
            && Landed(s, s.landed) == s.taken
            && Flatten(Landed(s, s.landed)) == s.added
  {
    var s := Run(maxSize, es);
    StopDrains(maxSize, es, p);
    RunInvariant(maxSize, es);
    RunInOrder(maxSize, es);
    LandedIsIdentity(s);
  }

  // ---- without the discipline ---------------------------------------------------------------

  lemma Extend<T>(maxSize: int, es: seq<Event<T>>, e: Event<T>) returns (es': seq<Event<T>>, s: State<T>)
    ensures es' == es + [e] && s == Run(maxSize, es') == Step(Run(maxSize, es), e)
    ensures forall n: nat :: n <= |es| ==>
      (DisciplinedSince(maxSize, es', n) <==> DisciplinedSince(maxSize, es, n) && Disciplined(Run(maxSize, es), e))
  {
    es' := es + [e];
    s := Run(maxSize, es');
    assert es'[..|es|] == es;
  }

  lemma EmptyRun(maxSize: int)
    ensures Run<int>(maxSize, []) == Init(maxSize)
  {
  }

  /** A `start` during a `stop` revives the old loop, which takes a batch, beside a new one. */
  lemma RevivedLoop(maxSize: int) returns (es: seq<Event<int>>)
    ensures !DisciplinedRun(maxSize, es)
    ensures var s := Run(maxSize, es);
            && s.procs == [LoopSinking(0), StopJoining(Some(0)), LoopTop] && s.running
            && s.taken == [[1]] && s.buffer == [] && s.outcome == [InFlight(0)] && s.landed == []
  {
    hide Run, DisciplinedSince;
    var s;
    EmptyRun(maxSize);
    es, s := Extend<int>(maxSize, [], Start);
    es, s := Extend(maxSize, es, Resume(0, true));
    es, s := Extend(maxSize, es, Stop);
    assert s.procs == [LoopWaiting, StopJoining(Some(0))];
    assert StopActive(s.procs[1]);
    es, s := Extend(maxSize, es, Start);
    es, s := Extend(maxSize, es, AddMany([1]));
    assert s.buffer == [1];
    es, s := Extend(maxSize, es, Resume(0, true));
    es, s := Extend(maxSize, es, Resume(0, true));
  }

  /** Two batches are then in flight at once, and the later one can reach the sink first. */
  lemma OverlappingStartReorders(maxSize: int)
    ensures exists es: seq<Event<int>> ::
              !DisciplinedRun(maxSize, es) && Run(maxSize, es).landed == [1, 0]
              && Run(maxSize, es).taken == [[1], [2]]
  {
    hide Run, DisciplinedSince;
    var es := RevivedLoop(maxSize);
    var s;
    es, s := Extend(maxSize, es, AddMany([2]));
    assert s.buffer == [2];
    es, s := Extend(maxSize, es, Resume(2, true));
    es, s := Extend(maxSize, es, Resume(2, true));
    es, s := Extend(maxSize, es, Resume(2, true));
    assert s.procs == [LoopSinking(0), StopJoining(Some(0)), LoopSinking(1)] && s.taken == [[1], [2]];
    es, s := Extend(maxSize, es, Resume(2, true));
    es, s := Extend(maxSize, es, Resume(0, true));
  }
}
