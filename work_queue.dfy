/** `WorkQueue` of utils/work-queue.ts: request handlers push closures, the
    host pops one per tick.  `pop` here reports whether entries REMAIN after
    the pop, not whether anything ran. */
module Queues {
  import opened QueueSpec

  class WorkQueue<W> {
    /** `_queue`: each entry's closure and the promise its `res`/`rej` settle. */
    var queue: seq<Entry<W>>
    /** How many promises `push` has handed out; the next one gets this number. */
    var issued: nat
    /** Settlement state of every promise handed out. */
    ghost var outcome: map<nat, Outcome>
    /** The closures run so far, in run order. */
    ghost var executed: seq<W>

    ghost function State(): QueueState<W>
      reads this
    {
      QueueState(queue, outcome, issued, executed)
    }

    ghost predicate Valid()
      reads this
    {
      Inv(State())
    }

    constructor ()
      ensures Valid() && State() == Empty()
    {
      queue, issued := [], 0;
      outcome, executed := map[], [];
    }

    /** `push(func)`: enqueue and hand back a pending promise; never fails. */
    method Push(func: W) returns (p: nat)
      requires Valid()
      modifies this
      ensures Valid()
      ensures (State(), p) == QueueSpec.Push(old(State()), func)
      ensures queue == old(queue) + [Entry(func, p)]
      ensures p !in old(outcome) && p in outcome && outcome[p] == Pending
      ensures executed == old(executed)
    {
      PushAppendsPending(State(), func);
      p := issued;
      queue := queue + [Entry(func, p)];
      outcome := outcome[p := Pending];
      issued := issued + 1;
    }

    /** `pop()`: run the most recently pushed closure, whose success is
        `succeeded`, and settle its promise; answer whether entries remain. */
    method Pop(succeeded: bool) returns (more: bool)
      requires Valid()
      modifies this
      ensures Valid()
      ensures State() == QueueSpec.Pop(old(State()), succeeded)
      ensures old(queue) == [] ==> !more && queue == [] && executed == old(executed)
      ensures old(queue) != [] ==> queue == old(queue)[..|old(queue)| - 1]
      ensures more <==> queue != []
    {
      if |queue| == 0 {
        return false;
      }
      PopSettlesLast(State(), succeeded);
      var e := queue[|queue| - 1];
      queue := queue[..|queue| - 1];
      outcome := outcome[e.promise := Settle(succeeded)];
      executed := executed + [e.func];
      more := |queue| != 0;
    }
  }
}
