/**
 * The rate-limited work queue the controller drains, reduced to one
 * sequential step at a time: pending items in order, the dirty set, the
 * items being processed, the rate limiter's failure counts, the
 * rate-limited adds still waiting out their backoff, and the Forget calls.
 */
module WorkQueue {
  import opened Wrappers

  /** A queue item: a key, or an object of some other type. */
  datatype Item = KeyItem(key: string) | Foreign(id: nat)

  function FailureCount(failures: map<Item, nat>, x: Item): nat
  {
    if x in failures then failures[x] else 0
  }

  class Queue {
    var items: seq<Item>
    var dirty: set<Item>
    var processing: set<Item>
    var shuttingDown: bool
    var failures: map<Item, nat>
    var delayed: seq<Item>
    var forgotten: seq<Item>

    /**
     * The pending items are exactly the dirty ones not being processed, each
     * once: a key is never pending twice, and never pending while in flight.
     */
    ghost predicate Valid()
      reads this
    {
      && (forall x :: x in items <==> x in dirty && x !in processing)
      && (forall i, j :: 0 <= i < j < |items| ==> items[i] != items[j])
    }

    constructor ()
      ensures Valid()
      ensures items == [] && dirty == {} && processing == {} && !shuttingDown
      ensures failures == map[] && delayed == [] && forgotten == []
    {
      items, dirty, processing, shuttingDown := [], {}, {}, false;
      failures, delayed, forgotten := map[], [], [];
    }

    /** Adds an item unless it is already waiting; an item in flight is only marked dirty. */
    method Add(x: Item)
      requires Valid()
      modifies this`items, this`dirty
      ensures Valid()
      ensures old(shuttingDown || x in dirty) ==> items == old(items) && dirty == old(dirty)
      ensures !old(shuttingDown || x in dirty) ==>
        && dirty == old(dirty) + {x}
        && items == old(items) + (if x in processing then [] else [x])
    {
      if shuttingDown || x in dirty {
        return;
      }
      dirty := dirty + {x};
      if x in processing {
        return;
      }
      items := items + [x];
    }

    /**
     * Takes the first pending item and marks it in flight, or reports
     * shutdown when nothing is pending. A worker blocks until one of the
     * two is possible, which the precondition states.
     */
    method Get() returns (item: Option<Item>)
      requires Valid()
      requires |items| > 0 || shuttingDown
      modifies this`items, this`dirty, this`processing
      ensures Valid()
      ensures old(|items|) == 0 ==> item.None? && items == old(items) && dirty == old(dirty) && processing == old(processing)
      ensures old(|items|) > 0 ==>
        && item == Some(old(items[0]))
        && items == old(items[1..])
        && dirty == old(dirty) - {item.value}
        && processing == old(processing) + {item.value}
        && item.value !in old(processing)
    {
      if |items| == 0 {
        return None;
      }
      var x := items[0];
      assert x in dirty && x !in processing;
      items := items[1..];
      dirty := dirty - {x};
      processing := processing + {x};
      assert forall y :: y in items ==> y != x by {
        forall y | y in items ensures y != x {
          var j :| 0 <= j < |items| && items[j] == y;
          assert old(items)[j + 1] == y;
        }
      }
      item := Some(x);
    }

    /** Releases an item in flight; it is queued again if it was added meanwhile. */
    method Done(x: Item)
      requires Valid() && x in processing
      modifies this`items, this`processing
      ensures Valid()
      ensures processing == old(processing) - {x}
      ensures items == old(items) + (if x in dirty then [x] else [])
    {
      processing := processing - {x};
      if x in dirty {
        items := items + [x];
      }
    }

    /** Clears the item's backoff history. */
    method Forget(x: Item)
      modifies this`failures, this`forgotten
      ensures failures == old(failures) - {x}
      ensures forgotten == old(forgotten) + [x]
    {
      failures := failures - {x};
      forgotten := forgotten + [x];
    }

    /**
     * Counts one more failure for the item and schedules it to be added after
     * its backoff; an item already waiting keeps its single waiting entry.
     */
    method AddRateLimited(x: Item)
      modifies this`failures, this`delayed
      ensures failures == old(failures)[x := FailureCount(old(failures), x) + 1]
      ensures delayed == old(delayed) + (if shuttingDown || x in old(delayed) then [] else [x])
    {
      failures := failures[x := FailureCount(failures, x) + 1];
      if !shuttingDown && x !in delayed {
        delayed := delayed + [x];
      }
    }

    /** The oldest rate-limited add whose backoff has elapsed reaches the queue through Add. */
    method Promote()
      requires Valid() && |delayed| > 0
      modifies this`items, this`dirty, this`delayed
      ensures Valid()
      ensures delayed == old(delayed[1..])
      ensures var x := old(delayed[0]);
        && (old(shuttingDown || x in dirty) ==> items == old(items) && dirty == old(dirty))
        && (!old(shuttingDown || x in dirty) ==>
              dirty == old(dirty) + {x} && items == old(items) + (if x in processing then [] else [x]))
    {
      var x := delayed[0];
      delayed := delayed[1..];
      Add(x);
    }
  }
}
