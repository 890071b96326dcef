/**
 The batch writer as a protocol: producers, flush-loop tasks and `stop` calls share one
 buffer, and every coroutine runs from one suspension point to the next as one step.
 A schedule is any sequence of steps; the theorems hold for all schedules.
 */
module BatchProtocol {
  import opened Collections

  /** Where a coroutine is suspended: the flush loop first, then a call of `stop`. */
  datatype Pc =
    | LoopTop
    | LoopWaiting
    | LoopFlushing
    | LoopSinking(batch: nat)
    | LoopExited
    | StopJoining(task: Option<nat>)
    | StopDraining
    | StopSinking(batch: nat, seen: nat)
    | StopReturned(seen: nat)

  datatype Outcome = InFlight(pid: nat) | Delivered | Failed

  /**
   `added`, `taken`, `outcome` and `landed` are the history: everything added so far,
   the batches taken in order, what became of each, and the delivered ones in the order
   in which the sink finished them. `seen` counts the items added before a final drain.
   */
  datatype State<T> = State(
    maxSize: int,
    buffer: seq<T>,
    running: bool,
    event: bool,
    task: Option<nat>,
    flushCount: nat,
    errorCount: nat,
    procs: seq<Pc>,
    added: seq<T>,
    taken: seq<seq<T>>,
    outcome: seq<Outcome>,
    landed: seq<nat>)

  datatype Event<T> = Start | Stop | AddMany(items: seq<T>) | Resume(pid: nat, ok: bool)

  function Init<T>(maxSize: int): State<T> {
    State(maxSize, [], false, false, None, 0, 0, [], [], [], [], [])
  }

  // ---- the steps -----------------------------------------------------------------

  /** `add` is `add_many` of one item; an empty `add_many` returns at once. */
  function Add<T>(s: State<T>, items: seq<T>): State<T> {
    if items == [] then s
    else
      var buffer := s.buffer + items;
      s.(buffer := buffer, added := s.added + items, event := s.event || |buffer| >= s.maxSize)
  }

  function At<T>(s: State<T>, pid: nat, pc: Pc): State<T>
    requires pid < |s.procs|
  {
    s.(procs := s.procs[pid := pc])
  }

  /** Take the whole buffer as one batch. */
  function Take<T>(s: State<T>, pid: nat): State<T> {
    s.(buffer := [], taken := s.taken + [s.buffer], outcome := s.outcome + [InFlight(pid)])
  }

  /** The sink has returned, or has raised. */
  function Complete<T>(s: State<T>, k: nat, ok: bool): State<T> {
    if k >= |s.outcome| then s
    else if ok then
      s.(outcome := s.outcome[k := Delivered], landed := s.landed + [k], flushCount := s.flushCount + 1)
    else
      s.(outcome := s.outcome[k := Failed], errorCount := s.errorCount + 1)
  }

  function Resumed<T>(s: State<T>, pid: nat, ok: bool): State<T>
    requires pid < |s.procs|
  {
    match s.procs[pid]
    case LoopTop => At(s, pid, if s.running then LoopWaiting else LoopExited)
    case LoopWaiting => At(s.(event := false), pid, LoopFlushing)
    case LoopFlushing =>
      if s.buffer == [] then At(s, pid, LoopTop) else At(Take(s, pid), pid, LoopSinking(|s.taken|))
    case LoopSinking(k) => At(Complete(s, k, ok), pid, LoopTop)
    case LoopExited => s
    case StopJoining(task) =>
      if task.None? then At(s, pid, StopDraining)
      else if task.value < |s.procs| && s.procs[task.value] == LoopExited then At(s.(task := None), pid, StopDraining)
      else s
    case StopDraining =>
      if s.buffer == [] then At(s, pid, StopReturned(|s.added|))
      else At(Take(s, pid), pid, StopSinking(|s.taken|, |s.added|))
    case StopSinking(k, seen) => At(Complete(s, k, ok), pid, StopReturned(seen))
    case StopReturned(_) => s
  }

  function Step<T>(s: State<T>, e: Event<T>): State<T> {
    match e
    case Start =>
      if s.running then s
      else s.(running := true, task := Some(|s.procs|), procs := s.procs + [LoopTop])
    case Stop =>
      if !s.running then s
      else s.(running := false, event := true, procs := s.procs + [StopJoining(s.task)])
    case AddMany(items) => Add(s, items)
    case Resume(pid, ok) => if pid < |s.procs| then Resumed(s, pid, ok) else s
  }

  function Run<T>(maxSize: int, es: seq<Event<T>>): State<T> {
    if es == [] then Init(maxSize) else Step(Run(maxSize, es[..|es| - 1]), es[|es| - 1])
  }

  // ---- conservation, over every schedule ---------------------------------------------

  /** The batch a coroutine is waiting for the sink on. */
  function Holding(pc: Pc): Option<nat> {
    match pc
    case LoopSinking(k) => Some(k)
    case StopSinking(k, _) => Some(k)
    case _ => None
  }

  function Count(outcome: seq<Outcome>, o: Outcome): nat {
    if outcome == [] then 0
    else Count(outcome[..|outcome| - 1], o) + if outcome[|outcome| - 1] == o then 1 else 0
  }

  ghost predicate Conserved<T>(s: State<T>) {
    && s.added == Flatten(s.taken) + s.buffer
    && |s.outcome| == |s.taken|
    && (forall k :: 0 <= k < |s.taken| ==> s.taken[k] != [])
  }

  ghost predicate HeldAt<T>(s: State<T>, p: nat, k: nat) {
    (k < |s.outcome| && s.outcome[k] == InFlight(p)) <==> (p < |s.procs| && Holding(s.procs[p]) == Some(k))
  }

  /** A batch is in flight exactly while the coroutine that took it awaits the sink on it. */
  ghost predicate Held<T>(s: State<T>) {
    forall p: nat, k: nat :: HeldAt(s, p, k)
  }

  ghost predicate Counted<T>(s: State<T>) {
    && s.flushCount == Count(s.outcome, Delivered) == |s.landed|
    && s.errorCount == Count(s.outcome, Failed)
    && (forall k: nat :: k in s.landed <==> k < |s.outcome| && s.outcome[k] == Delivered)
    && Distinct(s.landed)
  }

  /** A full buffer is never left unannounced: the event is set, or a loop is about to flush. */
  ghost predicate Announced<T>(s: State<T>) {
    s.buffer != [] && |s.buffer| >= s.maxSize ==>
      s.event || exists p :: 0 <= p < |s.procs| && s.procs[p] == LoopFlushing
  }

  /** After a final drain only items added later are still in the buffer. */
  ghost predicate Drained<T>(s: State<T>) {
    forall p :: 0 <= p < |s.procs| ==>
      match s.procs[p]
      case StopReturned(seen) => seen <= |s.added| && |s.buffer| <= |s.added| - seen
      case StopSinking(_, seen) => seen <= |s.added| && |s.buffer| <= |s.added| - seen
      case _ => true
  }

  ghost predicate Inv<T>(s: State<T>) {
    Conserved(s) && Held(s) && Counted(s) && Announced(s) && Drained(s)
  }

  lemma {:induction false} CountUpdate(outcome: seq<Outcome>, k: nat, o: Outcome, x: Outcome)
    requires k < |outcome|
    ensures Count(outcome[k := o], x)
         == Count(outcome, x) + (if o == x then 1 else 0) - (if outcome[k] == x then 1 else 0)
  {
    var n := |outcome| - 1;
    if k < n {
      CountUpdate(outcome[..n], k, o, x);
      assert outcome[k := o][..n] == outcome[..n][k := o];
    } else {
      assert outcome[k := o][..n] == outcome[..n];
    }
  }

  lemma CountAppend(outcome: seq<Outcome>, o: Outcome, x: Outcome)
    ensures Count(outcome + [o], x) == Count(outcome, x) + if o == x then 1 else 0
  {
    assert (outcome + [o])[..|outcome|] == outcome;
  }

  /** Moving a coroutine that holds no batch, without touching the batches. */
  lemma MoveKeepsHeld<T>(s: State<T>, t: State<T>, pid: nat)
    requires Held(s) && t.outcome == s.outcome && |t.procs| >= |s.procs| && pid < |t.procs|
    requires forall p :: 0 <= p < |t.procs| && p != pid ==> p < |s.procs| && t.procs[p] == s.procs[p]
    requires Holding(t.procs[pid]).None? && (pid < |s.procs| ==> Holding(s.procs[pid]).None?)
    ensures Held(t)
  {
    forall p: nat, k: nat
      ensures HeldAt(t, p, k)
    {
      assert HeldAt(s, p, k);
    }
  }

  lemma TakeKeepsHeld<T>(s: State<T>, pid: nat, pc: Pc)
    requires Held(s) && |s.outcome| == |s.taken| && pid < |s.procs| && Holding(s.procs[pid]).None?
    requires Holding(pc) == Some(|s.taken|)
    ensures Held(At(Take(s, pid), pid, pc))
  {
    var t := At(Take(s, pid), pid, pc);
    forall p: nat, k: nat
      ensures HeldAt(t, p, k)
    {
      assert HeldAt(s, p, k);
    }
  }

  lemma CompleteKeepsHeld<T>(s: State<T>, pid: nat, ok: bool, pc: Pc)
    requires Held(s) && pid < |s.procs| && Holding(s.procs[pid]).Some? && Holding(pc).None?
    ensures Holding(s.procs[pid]).value < |s.outcome|
    ensures s.outcome[Holding(s.procs[pid]).value] == InFlight(pid)
    ensures Held(At(Complete(s, Holding(s.procs[pid]).value, ok), pid, pc))
  {
    var k := Holding(s.procs[pid]).value;
    assert HeldAt(s, pid, k);
    var t := At(Complete(s, k, ok), pid, pc);
    forall p: nat, j: nat
      ensures HeldAt(t, p, j)
    {
      assert HeldAt(s, p, j);
    }
  }

  lemma CompleteKeepsCounted<T>(s: State<T>, k: nat, ok: bool)
    requires Counted(s) && k < |s.outcome| && s.outcome[k].InFlight?
    ensures Counted(Complete(s, k, ok))
  {
    hide Count;
    CountUpdate(s.outcome, k, if ok then Delivered else Failed, Delivered);
    CountUpdate(s.outcome, k, if ok then Delivered else Failed, Failed);
  }

  lemma TakeKeepsCounted<T>(s: State<T>, pid: nat)
    requires Counted(s)
    ensures Counted(Take(s, pid))
  {
    hide Count;
    CountAppend(s.outcome, InFlight(pid), Delivered);
    CountAppend(s.outcome, InFlight(pid), Failed);
  }

  lemma CountedFields<T>(s: State<T>, t: State<T>)
    requires Counted(s) && t.outcome == s.outcome && t.landed == s.landed
    requires t.flushCount == s.flushCount && t.errorCount == s.errorCount
    ensures Counted(t)
  {
  }

  lemma TakeKeepsConserved<T>(s: State<T>, pid: nat)
    requires Conserved(s) && s.buffer != []
    ensures Conserved(Take(s, pid))
  {
    FlattenAppend(s.taken, s.buffer);
  }

  lemma AnnouncedElsewhere<T>(s: State<T>, t: State<T>, pid: nat)
    requires Announced(s) && t.buffer == s.buffer && t.maxSize == s.maxSize && t.event == s.event
    requires pid < |s.procs| == |t.procs| && s.procs[pid] != LoopFlushing
    requires forall p :: 0 <= p < |s.procs| && p != pid ==> t.procs[p] == s.procs[p]
    ensures Announced(t)
  {
    if exists p :: 0 <= p < |s.procs| && s.procs[p] == LoopFlushing {
      var p :| 0 <= p < |s.procs| && s.procs[p] == LoopFlushing;
      assert t.procs[p] == LoopFlushing;
    }
  }

  lemma CompletingKeeps<T>(s: State<T>, pid: nat, ok: bool)
    requires Inv(s) && pid < |s.procs| && Holding(s.procs[pid]).Some?
    ensures Inv(Resumed(s, pid, ok))
  {
    hide Count, Flatten, Counted, Held;
    var k, t := Holding(s.procs[pid]).value, Resumed(s, pid, ok);
    CompleteKeepsHeld(s, pid, ok, t.procs[pid]);
    CompleteKeepsCounted(s, k, ok);
    CountedFields(Complete(s, k, ok), t);
    AnnouncedElsewhere(s, t, pid);
  }

  lemma TakingKeeps<T>(s: State<T>, pid: nat, ok: bool)
    requires Inv(s) && pid < |s.procs| && s.buffer != [] && (s.procs[pid].LoopFlushing? || s.procs[pid].StopDraining?)
    ensures Inv(Resumed(s, pid, ok))
  {
    hide Count, Flatten, Counted, Held;
    var t := Resumed(s, pid, ok);
    TakeKeepsConserved(s, pid);
    TakeKeepsHeld(s, pid, t.procs[pid]);
    TakeKeepsCounted(s, pid);
    CountedFields(Take(s, pid), t);
  }

  /** A step that neither takes nor finishes a batch moves one coroutine. */
  lemma MovedFields<T>(s: State<T>, pid: nat, ok: bool)
    requires pid < |s.procs| && Holding(s.procs[pid]).None?
    requires s.buffer == [] || !(s.procs[pid].LoopFlushing? || s.procs[pid].StopDraining?)
    ensures var t := Resumed(s, pid, ok);
            && t.maxSize == s.maxSize && t.buffer == s.buffer && t.added == s.added && t.taken == s.taken
            && t.outcome == s.outcome && t.landed == s.landed
            && t.flushCount == s.flushCount && t.errorCount == s.errorCount
            && |t.procs| == |s.procs| && (forall p :: 0 <= p < |s.procs| && p != pid ==> t.procs[p] == s.procs[p])
            && Holding(t.procs[pid]).None?
            && (if s.procs[pid].LoopWaiting? then t.procs[pid] == LoopFlushing else t.event == s.event)
            && (t.procs[pid].StopReturned? ==>
                  t.procs[pid] == s.procs[pid] || (s.buffer == [] && t.procs[pid].seen == |s.added|))
            && (s.procs[pid].LoopFlushing? ==> s.buffer == [])
  {
    match s.procs[pid]
    case LoopTop =>
    case LoopWaiting =>
    case LoopFlushing =>
    case LoopExited =>
    case StopJoining(task) =>
    case StopDraining =>
    case StopReturned(seen) =>
  }

  lemma MovingKeeps<T>(s: State<T>, pid: nat, ok: bool)
    requires Inv(s) && pid < |s.procs| && Holding(s.procs[pid]).None?
    requires s.buffer == [] || !(s.procs[pid].LoopFlushing? || s.procs[pid].StopDraining?)
    ensures Inv(Resumed(s, pid, ok))
  {
    hide Count, Flatten, Counted, Held, Resumed;
    var t := Resumed(s, pid, ok);
    MovedFields(s, pid, ok);
    if t != s {
      MoveKeepsHeld(s, t, pid);
      CountedFields(s, t);
      if s.procs[pid].LoopWaiting? {
        assert t.procs[pid] == LoopFlushing;
      } else if s.buffer != [] {
        AnnouncedElsewhere(s, t, pid);
      }
    }
  }

  /** One step of one coroutine keeps every invariant. */
  lemma ResumeKeeps<T>(s: State<T>, pid: nat, ok: bool)
    requires Inv(s) && pid < |s.procs|
    ensures Inv(Resumed(s, pid, ok))
  {
    hide Inv, Resumed;
    if Holding(s.procs[pid]).Some? {
      CompletingKeeps(s, pid, ok);
    } else if s.buffer != [] && (s.procs[pid].LoopFlushing? || s.procs[pid].StopDraining?) {
      TakingKeeps(s, pid, ok);
    } else {
      MovingKeeps(s, pid, ok);
    }
  }

  lemma HeldFields<T>(s: State<T>, t: State<T>)
    requires Held(s) && t.outcome == s.outcome && t.procs == s.procs
    ensures Held(t)
  {
    forall p: nat, k: nat
      ensures HeldAt(t, p, k)
    {
      assert HeldAt(s, p, k);
    }
  }

  lemma StepKeeps<T>(s: State<T>, e: Event<T>)
    requires Inv(s)
    ensures Inv(Step(s, e))
  {
    hide Count, Flatten, Counted, Held;
    var t := Step(s, e);
    match e
    case Resume(pid, ok) =>
      if pid < |s.procs| {
        ResumeKeeps(s, pid, ok);
      }
    case AddMany(items) =>
      HeldFields(s, t);
      CountedFields(s, t);
      if t != s && t.buffer != [] && |t.buffer| >= t.maxSize {
        assert t.event;
      }
    case _ =>
      if t != s {
        MoveKeepsHeld(s, t, |s.procs|);
        CountedFields(s, t);
        if exists p :: 0 <= p < |s.procs| && s.procs[p] == LoopFlushing {
          var p :| 0 <= p < |s.procs| && s.procs[p] == LoopFlushing;
          assert t.procs[p] == LoopFlushing;
        }
      }
  }

  /** Every reachable state, under any schedule, satisfies every invariant. */
  lemma {:induction false} RunInvariant<T>(maxSize: int, es: seq<Event<T>>)
    ensures Inv(Run(maxSize, es))
  {
    if es != [] {
      RunInvariant(maxSize, es[..|es| - 1]);
      StepKeeps(Run(maxSize, es[..|es| - 1]), es[|es| - 1]);
    }
  }

  /**
   Conservation under every schedule, overlapping starts included: what was added is
   the batches taken, in order, followed by the buffer; a batch is in flight exactly
   while its taker awaits the sink; the two counters count the finished batches; and a
   full buffer is never left with nobody told.
   */
  lemma Conservation<T>(maxSize: int, es: seq<Event<T>>)
    ensures var s := Run(maxSize, es);
            && s.added == Flatten(s.taken) + s.buffer
            && |s.outcome| == |s.taken|
            && (forall k: nat, p: nat :: k < |s.outcome| && s.outcome[k] == InFlight(p) ==>
                  p < |s.procs| && Holding(s.procs[p]) == Some(k))
            && s.flushCount == Count(s.outcome, Delivered)
            && s.errorCount == Count(s.outcome, Failed)
            && (s.buffer != [] && |s.buffer| >= s.maxSize ==>
                  s.event || exists p :: 0 <= p < |s.procs| && s.procs[p] == LoopFlushing)
  {
    hide Flatten, Count, Run;
    RunInvariant(maxSize, es);
    var s := Run(maxSize, es);
    forall k: nat, p: nat | k < |s.outcome| && s.outcome[k] == InFlight(p)
      ensures p < |s.procs| && Holding(s.procs[p]) == Some(k)
    {
      assert HeldAt(s, p, k);
    }
  }

  // ---- the event ------------------------------------------------------------------------

  /** The step announces work for the loop: it fills the buffer, or it asks a running writer to stop. */
  predicate Rings<T>(s: State<T>, e: Event<T>) {
    match e
    case Stop => s.running
    case AddMany(items) => items != [] && |s.buffer| + |items| >= s.maxSize
    case _ => false
  }

  /** The step wakes a waiting loop. */
  predicate Wakes<T>(s: State<T>, e: Event<T>) {
    e.Resume? && e.pid < |s.procs| && s.procs[e.pid] == LoopWaiting
  }

  /** Something was announced, and no loop has been woken since. */
  ghost predicate RungSinceWake<T>(maxSize: int, es: seq<Event<T>>) {
    exists i :: 0 <= i < |es| && Rings(Run(maxSize, es[..i]), es[i])
                && forall j :: i < j < |es| ==> !Wakes(Run(maxSize, es[..j]), es[j])
  }

  lemma StepEvent<T>(s: State<T>, e: Event<T>)
    ensures Step(s, e).event <==> Rings(s, e) || (s.event && !Wakes(s, e))
  {
  }

  lemma RungSinceAppend<T>(maxSize: int, es: seq<Event<T>>)
    requires es != []
    ensures var n := |es| - 1;
            var s := Run(maxSize, es[..n]);
            RungSinceWake(maxSize, es) <==> Rings(s, es[n]) || (RungSinceWake(maxSize, es[..n]) && !Wakes(s, es[n]))
  {
    hide Run, Rings, Wakes;
    var n := |es| - 1;
    var front := es[..n];
    assert forall i :: 0 <= i < n ==> front[..i] == es[..i] && front[i] == es[i];
    if RungSinceWake(maxSize, front) && !Wakes(Run(maxSize, front), es[n]) {
      var i :| 0 <= i < n && Rings(Run(maxSize, front[..i]), front[i])
               && forall j :: i < j < n ==> !Wakes(Run(maxSize, front[..j]), front[j]);
      assert Rings(Run(maxSize, es[..i]), es[i]);
    }
  }

  /** In every schedule the event is set exactly when something was announced since the last wake-up. */
  lemma {:induction false} EventMeaning<T>(maxSize: int, es: seq<Event<T>>)
    ensures Run(maxSize, es).event <==> RungSinceWake(maxSize, es)
  {
    if es != [] {
      hide Step, Rings, Wakes, RungSinceWake;
      var n := |es| - 1;
      EventMeaning(maxSize, es[..n]);
      StepEvent(Run(maxSize, es[..n]), es[n]);
      RungSinceAppend(maxSize, es);
    }
  }
}
