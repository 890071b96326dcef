/**
 The batch writer as the object the producers, the flush loop and `stop` share. Each
 method is one step between suspension points and is proved to be the protocol's step.
 */
module BatchWriting {
  import opened Collections
  import opened BatchProtocol

  class BatchWriter<T(==)> {
    const maxSize: int
    var buffer: seq<T>
    var running: bool
    var flushEvent: bool
    var task: Option<nat>
    var flushCount: nat
    var errorCount: nat
    ghost var procs: seq<Pc>
    ghost var added: seq<T>
    ghost var taken: seq<seq<T>>
    ghost var outcome: seq<Outcome>
    ghost var landed: seq<nat>

    ghost function Model(): State<T>
      reads this
    {
      State(maxSize, buffer, running, flushEvent, task, flushCount, errorCount, procs, added, taken, outcome, landed)
    }

    constructor (maxSize: int)
      ensures Model() == Init(maxSize)
    {
      this.maxSize := maxSize;
      buffer, running, flushEvent, task, flushCount, errorCount := [], false, false, None, 0, 0;
      procs, added, taken, outcome, landed := [], [], [], [], [];
    }

    /** Create the flush-loop task, whose handle is `created`, unless already running. */
    method Start(created: nat)
      requires created == |procs|
      modifies this
      ensures Model() == Step(old(Model()), Event.Start)
    {
      if running {
        return;
      }
      running := true;
      task := Some(created);
      procs := procs + [LoopTop];
    }

    /** The part of `stop` before its first suspension; the rest runs in `Resume`. */
    method Stop()
      modifies this
      ensures Model() == Step(old(Model()), Event.Stop)
    {
      if !running {
        return;
      }
      running := false;
      flushEvent := true;
      procs := procs + [StopJoining(task)];
    }

    method Add(item: T)
      modifies this
      ensures Model() == Step(old(Model()), Event.AddMany([item]))
    {
      buffer := buffer + [item];
      added := added + [item];
      var full := |buffer| >= maxSize;
      if full {
        flushEvent := true;
      }
    }

    method AddMany(items: seq<T>)
      modifies this
      ensures Model() == Step(old(Model()), Event.AddMany(items))
    {
      if items == [] {
        return;
      }
      buffer := buffer + items;
      added := added + items;
      var full := |buffer| >= maxSize;
      if full {
        flushEvent := true;
      }
    }

    /** The test at the top of the flush loop of task `pid`. */
    method LoopTest(ghost pid: nat) returns (again: bool)
      requires pid < |procs| && procs[pid] == LoopTop
      modifies `procs
      ensures forall ok :: Model() == Step(old(Model()), Event.Resume(pid, ok))
      ensures again == running
    {
      again := running;
      procs := procs[pid := if again then LoopWaiting else LoopExited];
    }

    /** The wait of task `pid` ended, by the event or by the timeout. */
    method LoopWake(ghost pid: nat)
      requires pid < |procs| && procs[pid] == LoopWaiting
      modifies `procs, `flushEvent
      ensures forall ok :: Model() == Step(old(Model()), Event.Resume(pid, ok))
    {
      flushEvent := false;
      procs := procs[pid := LoopFlushing];
    }

    /** The locked part of a flush: swap the buffer out as one batch, unless it is empty. */
    method FlushTake(ghost pid: nat) returns (batch: seq<T>)
      requires pid < |procs| && (procs[pid] == LoopFlushing || procs[pid] == StopDraining)
      modifies `buffer, `procs, `taken, `outcome
      ensures forall ok :: Model() == Step(old(Model()), Event.Resume(pid, ok))
      ensures batch == old(buffer)
    {
      batch := buffer;
      if batch == [] {
        procs := procs[pid := if procs[pid] == LoopFlushing then LoopTop else StopReturned(|added|)];
        return;
      }
      procs := procs[pid := if procs[pid] == LoopFlushing then LoopSinking(|taken|) else StopSinking(|taken|, |added|)];
      taken := taken + [buffer];
      outcome := outcome + [InFlight(pid)];
      buffer := [];
    }

    /** The sink returned (`ok`) or raised; an error is counted and goes no further. */
    method FlushDone(ghost pid: nat, ok: bool)
      requires Inv(Model())
      requires pid < |procs| && Holding(procs[pid]).Some?
      modifies `flushCount, `errorCount, `procs, `outcome, `landed
      ensures Model() == Step(old(Model()), Event.Resume(pid, ok))
    {
      ghost var k := Holding(procs[pid]).value;
      assert HeldAt(Model(), pid, k);
      if ok {
        flushCount := flushCount + 1;
        landed := landed + [k];
        outcome := outcome[k := Delivered];
      } else {
        errorCount := errorCount + 1;
        outcome := outcome[k := Failed];
      }
      procs := procs[pid := if procs[pid].LoopSinking? then LoopTop else StopReturned(procs[pid].seen)];
    }

    /** `stop` has awaited the loop task it found, if any. */
    method StopJoined(ghost pid: nat, joined: Option<nat>)
      requires pid < |procs| && procs[pid] == StopJoining(joined)
      requires joined.Some? ==> joined.value < |procs| && procs[joined.value] == LoopExited
      modifies `task, `procs
      ensures forall ok :: Model() == Step(old(Model()), Event.Resume(pid, ok))
    {
      if joined.Some? {
        task := None;
      }
      procs := procs[pid := StopDraining];
    }
  }
}
