/**
 * The cycle scheduler (Scheduler.kt): sixteen slots, each either free
 * (deadline -1) or holding a task and the counter value at which it is due.
 * `tick` walks the slots from 0, stops at the first free one and reports
 * each task whose deadline has been reached, then advances the counter by
 * one.
 *
 * A task is a closure in the source; here it is named by a `Task` value,
 * and `Tick` returns the due slots in the order the source would call
 * them instead of calling them.
 */
module Scheduling {
  import opened Wrappers

  /** `taskQueueSize`. */
  const SlotCount: nat := 16

  /** The deadline of a free slot. */
  const Free: int := -1

  /** The tasks the rest of the model schedules; `Other` stands for any other closure. */
  datatype Task = HDraw | HBlank | VBlank | DmaImmediate | Other(id: nat)

  /** The lowest free slot at or after `k`, if there is one. */
  function FirstFree(deadlines: seq<int>, k: nat): (r: Option<nat>)
    ensures r.Some? ==> k <= r.value < |deadlines|
    decreases |deadlines| - k
  {
    if k >= |deadlines| then None
    else if deadlines[k] == Free then Some(k)
    else FirstFree(deadlines, k + 1)
  }

  /** `FirstFree` finds a free slot, the lowest one, and finds none only when every slot from `k` on is taken. */
  lemma {:induction false} FirstFreeIsLowest(deadlines: seq<int>, k: nat)
    ensures FirstFree(deadlines, k).Some? ==>
      var i := FirstFree(deadlines, k).value;
      k <= i < |deadlines| && deadlines[i] == Free && forall j :: k <= j < i ==> deadlines[j] != Free
    ensures FirstFree(deadlines, k).None? <==> forall j :: k <= j < |deadlines| ==> deadlines[j] != Free
    decreases |deadlines| - k
  {
    if k < |deadlines| && deadlines[k] != Free {
      FirstFreeIsLowest(deadlines, k + 1);
    }
  }

  /**
   * The slots `tick` finds due, from slot `k` on: it stops at the first free
   * slot and takes every slot before it whose deadline is at most `counter`.
   */
  function Due(deadlines: seq<int>, counter: int, k: nat): (r: seq<nat>)
    decreases |deadlines| - k
  {
    if k >= |deadlines| || deadlines[k] == Free then []
    else (if deadlines[k] <= counter then [k] else []) + Due(deadlines, counter, k + 1)
  }

  /** Every slot `Due` reports is taken, reached, and has no free slot before it. */
  lemma {:induction false} DueSound(deadlines: seq<int>, counter: int, k: nat, i: nat)
    requires i in Due(deadlines, counter, k)
    ensures k <= i < |deadlines| && deadlines[i] != Free && deadlines[i] <= counter
    ensures forall j :: k <= j < i ==> deadlines[j] != Free
    decreases |deadlines| - k
  {
    if i !in (if deadlines[k] <= counter then [k] else []) {
      DueSound(deadlines, counter, k + 1, i);
    }
  }

  /** Every taken, reached slot with no free slot before it is reported. */
  lemma {:induction false} DueComplete(deadlines: seq<int>, counter: int, k: nat, i: nat)
    requires k <= i < |deadlines| && deadlines[i] != Free && deadlines[i] <= counter
    requires forall j :: k <= j < i ==> deadlines[j] != Free
    ensures i in Due(deadlines, counter, k)
    decreases |deadlines| - k
  {
    if i != k {
      DueComplete(deadlines, counter, k + 1, i);
    }
  }

  /** The due slots come in increasing order, so each task runs at most once per tick. */
  lemma {:induction false} DueIncreasing(deadlines: seq<int>, counter: int, k: nat)
    ensures forall a, b :: 0 <= a < b < |Due(deadlines, counter, k)| ==>
      Due(deadlines, counter, k)[a] < Due(deadlines, counter, k)[b]
    ensures forall a :: 0 <= a < |Due(deadlines, counter, k)| ==> k <= Due(deadlines, counter, k)[a]
    decreases |deadlines| - k
  {
    if k < |deadlines| && deadlines[k] != Free {
      DueIncreasing(deadlines, counter, k + 1);
    }
  }

  class Scheduler {
    var counter: int
    var taskCounters: array<int>
    var tasks: array<Option<Task>>

    ghost predicate Valid()
      reads this
    {
      taskCounters.Length == SlotCount && tasks.Length == SlotCount
    }

    /** A new scheduler: counter 0 and every slot free. */
    constructor ()
      ensures Valid() && fresh(taskCounters) && fresh(tasks)
      ensures counter == 0
      ensures forall i :: 0 <= i < SlotCount ==> taskCounters[i] == Free && tasks[i] == None
    {
      counter := 0;
      taskCounters := new int[SlotCount](_ => Free);
      tasks := new Option<Task>[SlotCount](_ => None);
    }

    /** `schedule(after, task, index)`: slot `index` is due `after` ticks from now. */
    method ScheduleAt(after: int, task: Option<Task>, index: nat)
      requires Valid() && index < SlotCount
      modifies taskCounters, tasks
      ensures taskCounters[..] == old(taskCounters[..])[index := counter + after]
      ensures tasks[..] == old(tasks[..])[index := task]
    {
      taskCounters[index] := counter + after;
      tasks[index] := task;
    }

    /** `clear(index)`: slot `index` becomes free. */
    method Clear(index: nat)
      requires Valid() && index < SlotCount
      modifies taskCounters, tasks
      ensures taskCounters[..] == old(taskCounters[..])[index := Free]
      ensures tasks[..] == old(tasks[..])[index := None]
    {
      tasks[index] := None;
      taskCounters[index] := Free;
    }

    /**
     * `schedule(after, task)`: the lowest free slot takes the task. With no
     * free slot the source runs off the end of the table and throws; here
     * that is `ok == false` and nothing changes.
     */
    method Schedule(after: int, task: Option<Task>) returns (ok: bool)
      requires Valid()
      modifies taskCounters, tasks
      ensures ok == FirstFree(old(taskCounters[..]), 0).Some?
      ensures ok ==> var i := FirstFree(old(taskCounters[..]), 0).value;
        taskCounters[..] == old(taskCounters[..])[i := counter + after] && tasks[..] == old(tasks[..])[i := task]
      ensures !ok ==> taskCounters[..] == old(taskCounters[..]) && tasks[..] == old(tasks[..])
    {
      var deadline := counter + after;
      var index := 0;
      while index < SlotCount && taskCounters[index] != Free
        invariant 0 <= index <= SlotCount
        invariant FirstFree(taskCounters[..], 0) == FirstFree(taskCounters[..], index)
      {
        index := index + 1;
      }
      if index == SlotCount {
        return false;
      }
      taskCounters[index] := deadline;
      tasks[index] := task;
      ok := true;
    }

    /**
     * `tick`: the slots whose tasks are due, in the order the source calls
     * them, then the counter advances by exactly one.
     */
    method Tick() returns (due: seq<nat>)
      requires Valid()
      modifies this
      ensures counter == old(counter) + 1
      ensures taskCounters == old(taskCounters) && tasks == old(tasks)
      ensures due == Due(taskCounters[..], old(counter), 0)
    {
      due := [];
      var index := 0;
      while index < SlotCount
        invariant 0 <= index <= SlotCount
        invariant due + Due(taskCounters[..], counter, index) == Due(taskCounters[..], counter, 0)
      {
        var deadline := taskCounters[index];
        if deadline == Free {
          break;
        }
        if deadline <= counter {
          due := due + [index];
        }
        index := index + 1;
      }
      counter := counter + 1;
    }
  }
}
