/** The work hand-off queue as a pure state machine.

    Both copies of `WorkQueue` in the repository (utils/work-queue.ts and the
    inline one in mcp-server.ts) keep the same state and change it the same
    way; they differ only in what `pop` returns.  This module describes the
    state they share and how `push` and `pop` change it; the two classes are
    proved against it. */
module QueueSpec {

  /** Settlement state of the promise that `push` hands back. */
  datatype Outcome = Pending | Resolved | Rejected

  /** What the promise of a popped entry becomes when its closure succeeded or failed. */
  function Settle(succeeded: bool): Outcome
  {
    if succeeded then Resolved else Rejected
  }

  /** One `_queue` element: the closure to run, and the promise (its `res`/`rej`
      pair) that running it settles, identified by a number. */
  datatype Entry<W> = Entry(func: W, promise: nat)

  /** Abstract queue state.
      - entries:  the `_queue` array, oldest first;
      - outcome:  the settlement state of every promise handed out so far;
      - issued:   how many promises have been handed out (the next one's number);
      - executed: the closures run so far, in the order they ran. */
  datatype QueueState<W> = QueueState(
    entries: seq<Entry<W>>,
    outcome: map<nat, Outcome>,
    issued: nat,
    executed: seq<W>)

  /** The promises of the queued entries, in queue order. */
  function Promises<W>(es: seq<Entry<W>>): (ps: seq<nat>)
    ensures |ps| == |es|
    ensures forall i :: 0 <= i < |es| ==> ps[i] == es[i].promise
  {
    seq(|es|, i requires 0 <= i < |es| => es[i].promise)
  }

  /** The consistency of a queue state: promises are numbered 0 .. issued-1,
      each queued entry has its own promise, and a promise is pending exactly
      while its entry is still queued. */
  ghost predicate Inv<W>(s: QueueState<W>)
  {
    && (forall i, j :: 0 <= i < j < |s.entries| ==> s.entries[i].promise != s.entries[j].promise)
    && (forall i :: 0 <= i < |s.entries| ==> s.entries[i].promise < s.issued)
    && (forall t: nat :: t in s.outcome <==> t < s.issued)
    && (forall t: nat :: t in s.outcome ==> (s.outcome[t] == Pending <==> t in Promises(s.entries)))
  }

  /** A freshly constructed queue: `_queue = []`. */
  function Empty<W>(): (s: QueueState<W>)
    ensures Inv(s) && s.entries == [] && s.executed == []
  {
    QueueState([], map[], 0, [])
  }

  /** `push(func)`: append an entry whose promise is new and pending; hand the
      promise back.  Nothing runs. */
  function Push<W>(s: QueueState<W>, func: W): (QueueState<W>, nat)
  {
    var p := s.issued;
    (s.(entries := s.entries + [Entry(func, p)], outcome := s.outcome[p := Pending], issued := p + 1), p)
  }

  /** `pop()`: on an empty queue nothing happens; otherwise the LAST entry
      (`Array.prototype.pop`) is removed, its closure runs, and its promise is
      resolved or rejected according to `succeeded`. */
  function Pop<W>(s: QueueState<W>, succeeded: bool): QueueState<W>
  {
    if |s.entries| == 0 then s
    else
      var last := s.entries[|s.entries| - 1];
      s.(entries := s.entries[..|s.entries| - 1],
         outcome := s.outcome[last.promise := Settle(succeeded)],
         executed := s.executed + [last.func])
  }

  /** `oks[k]` is the success of the closure run by the k-th of a series of pops. */
  function PopAll<W>(s: QueueState<W>, oks: seq<bool>): QueueState<W>
    decreases |oks|
  {
    if oks == [] then s else PopAll(Pop(s, oks[0]), oks[1..])
  }

  /** The closures of a sequence of entries, last entry first. */
  function RunOrder<W>(es: seq<Entry<W>>): (r: seq<W>)
    ensures |r| == |es|
    ensures forall i :: 0 <= i < |es| ==> r[i] == es[|es| - 1 - i].func
  {
    if es == [] then [] else [es[|es| - 1].func] + RunOrder(es[..|es| - 1])
  }

  /** `push` never fails: it appends exactly one entry, leaves the earlier ones
      and every earlier promise as they were, and the promise it returns is new
      and pending. */
  lemma PushAppendsPending<W>(s: QueueState<W>, func: W)
    requires Inv(s)
    ensures var (r, p) := Push(s, func);
      && Inv(r)
      && r.entries == s.entries + [Entry(func, p)]
      && p !in s.outcome && p in r.outcome && r.outcome[p] == Pending
      && (forall t: nat :: t in s.outcome ==> t in r.outcome && r.outcome[t] == s.outcome[t])
      && r.executed == s.executed
  {
    var (r, p) := Push(s, func);
    assert Promises(r.entries) == Promises(s.entries) + [p];
    forall t | t in r.outcome
      ensures r.outcome[t] == Pending <==> t in Promises(r.entries)
    {
      if t != p {
        assert t in s.outcome;
      }
    }
  }

  /** `pop` on an empty queue is a no-op. */
  lemma PopEmptyIsNoOp<W>(s: QueueState<W>, succeeded: bool)
    requires s.entries == []
    ensures Pop(s, succeeded) == s
  {
  }

  /** `pop` on a non-empty queue removes exactly the most recently pushed
      entry, runs its closure once, and settles its (until then pending)
      promise according to the closure's success; every other promise keeps
      its state. */
  lemma PopSettlesLast<W>(s: QueueState<W>, succeeded: bool)
    requires Inv(s) && |s.entries| > 0
    ensures var n := |s.entries|; var last := s.entries[n - 1]; var r := Pop(s, succeeded);
      && Inv(r)
      && r.entries == s.entries[..n - 1]
      && r.executed == s.executed + [last.func]
      && s.outcome[last.promise] == Pending
      && r.outcome[last.promise] == Settle(succeeded)
      && last.promise !in Promises(r.entries)
      && (forall t: nat :: t in s.outcome && t != last.promise ==> t in r.outcome && r.outcome[t] == s.outcome[t])
  {
    var n := |s.entries|;
    var last := s.entries[n - 1];
    var r := Pop(s, succeeded);
    assert Promises(s.entries)[n - 1] == last.promise;
    assert Promises(r.entries) == Promises(s.entries)[..n - 1];
    assert last.promise !in Promises(r.entries) by {
      forall i | 0 <= i < n - 1 ensures Promises(r.entries)[i] != last.promise {
        assert s.entries[i].promise != s.entries[n - 1].promise;
      }
    }
    forall t | t in r.outcome
      ensures r.outcome[t] == Pending <==> t in Promises(r.entries)
    {
      if t != last.promise {
        assert t in Promises(s.entries) <==> t in Promises(r.entries) by {
          assert Promises(s.entries) == Promises(r.entries) + [last.promise];
        }
      }
    }
  }

  /** Exactly once: a promise that has been settled keeps its state through
      any later `push` or `pop`. */
  lemma SettledIsFinal<W>(s: QueueState<W>, t: nat, func: W, succeeded: bool)
    requires Inv(s) && t in s.outcome && s.outcome[t] != Pending
    ensures Push(s, func).0.outcome[t] == s.outcome[t]
    ensures Pop(s, succeeded).outcome[t] == s.outcome[t]
  {
    if |s.entries| > 0 {
      var n := |s.entries|;
      assert Promises(s.entries)[n - 1] == s.entries[n - 1].promise;
    }
  }

  /** Popping n times from a queue of n entries, with no push in between,
      runs every closure exactly once, in reverse push order, and leaves the
      queue empty. */
  lemma {:induction false} DrainRunsEachOnce<W>(s: QueueState<W>, oks: seq<bool>)
    requires Inv(s) && |oks| == |s.entries|
    ensures Inv(PopAll(s, oks))
    ensures PopAll(s, oks).entries == []
    ensures PopAll(s, oks).executed == s.executed + RunOrder(s.entries)
    decreases |oks|
  {
    if oks != [] {
      var last := s.entries[|s.entries| - 1];
      var s' := Pop(s, oks[0]);
      PopSettlesLast(s, oks[0]);
      DrainRunsEachOnce(s', oks[1..]);
      assert RunOrder(s.entries) == [last.func] + RunOrder(s'.entries);
    }
  }

  /** A drain touches no promise other than those of the entries it pops. */
  lemma {:induction false} DrainKeepsOtherPromises<W>(s: QueueState<W>, oks: seq<bool>, t: nat)
    requires Inv(s) && |oks| == |s.entries|
    requires t in s.outcome && t !in Promises(s.entries)
    ensures t in PopAll(s, oks).outcome && PopAll(s, oks).outcome[t] == s.outcome[t]
    decreases |oks|
  {
    if oks != [] {
      var s' := Pop(s, oks[0]);
      PopSettlesLast(s, oks[0]);
      assert Promises(s.entries) == Promises(s'.entries) + [s.entries[|s.entries| - 1].promise];
      DrainKeepsOtherPromises(s', oks[1..], t);
    }
  }

  /** The same drain settles every queued promise according to its own
      closure's success: the k-th pop settles the k-th entry from the end. */
  lemma {:induction false} DrainSettlesEachPromise<W>(s: QueueState<W>, oks: seq<bool>, k: nat)
    requires Inv(s) && |oks| == |s.entries| && k < |oks|
    ensures s.entries[|oks| - 1 - k].promise in PopAll(s, oks).outcome
    ensures PopAll(s, oks).outcome[s.entries[|oks| - 1 - k].promise] == Settle(oks[k])
    decreases |oks|
  {
    var n := |oks|;
    var last := s.entries[n - 1];
    var s' := Pop(s, oks[0]);
    PopSettlesLast(s, oks[0]);
    if k == 0 {
      DrainKeepsOtherPromises(s', oks[1..], last.promise);
    } else {
      DrainSettlesEachPromise(s', oks[1..], k - 1);
      assert oks[1..][k - 1] == oks[k];
      assert s'.entries[(n - 1) - 1 - (k - 1)] == s.entries[n - 1 - k];
    }
  }

  /** LIFO: of two closures pushed one after the other, the next pop runs
      the later one and leaves the earlier one queued with its promise still
      pending. */
  lemma LaterPushRunsFirst<W>(s: QueueState<W>, first: W, second: W, succeeded: bool)
    requires Inv(s)
    ensures var (s1, p1) := Push(s, first);
      var (s2, p2) := Push(s1, second);
      var r := Pop(s2, succeeded);
      && r.executed == s.executed + [second]
      && r.entries == s.entries + [Entry(first, p1)]
      && p1 in r.outcome && r.outcome[p1] == Pending
      && p2 in r.outcome && r.outcome[p2] == Settle(succeeded)
  {
    var (s1, p1) := Push(s, first);
    PushAppendsPending(s, first);
    PushAppendsPending(s1, second);
  }
}
