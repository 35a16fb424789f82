/**
  The rate-limited work queue the controller's workers share, for any keys and any number of
  workers: an entry is dirty while it needs work and processing while a worker has it, and it waits
  in line only while it is the one and not the other.
 */
module WorkQueue {
  import opened Common

  type Key = Name

  datatype Queue = Queue(
    line: seq<Key>,
    dirty: set<Key>,
    processing: set<Key>,
    waiting: multiset<Key>,      // delayed additions
    failures: map<Key, nat>,     // the rate limiter's count of requeues
    shuttingDown: bool
  )

  const EMPTY := Queue([], {}, {}, multiset{}, map[], false)

  function Requeues(q: Queue, k: Key): nat {
    if k in q.failures then q.failures[k] else 0
  }

  function Add(q: Queue, k: Key): Queue {
    if q.shuttingDown || k in q.dirty then q
    else q.(dirty := q.dirty + {k}, line := if k in q.processing then q.line else q.line + [k])
  }

  /** The worker takes the first key in line. */
  function Take(q: Queue): Queue
    requires q.line != []
  {
    q.(line := q.line[1..], processing := q.processing + {q.line[0]}, dirty := q.dirty - {q.line[0]})
  }

  function Done(q: Queue, k: Key): Queue {
    q.(processing := q.processing - {k}, line := if k in q.dirty then q.line + [k] else q.line)
  }

  function Forget(q: Queue, k: Key): Queue {
    q.(failures := q.failures - {k})
  }

  /** A limited addition counts as a requeue and may have to wait. */
  function AddRateLimited(q: Queue, k: Key, delayed: bool): Queue {
    var q1 := q.(failures := q.failures[k := Requeues(q, k) + 1]);
    if q.shuttingDown then q1
    else if delayed then q1.(waiting := q1.waiting + multiset{k})
    else Add(q1, k)
  }

  /** A delayed addition comes due, alone or merged with others of the same key. */
  function ComeDue(q: Queue, k: Key, n: nat): Queue
    requires 0 < n <= q.waiting[k]
  {
    Add(q.(waiting := q.waiting[k := q.waiting[k] - n]), k)
  }

  // ---------- What every operation keeps ----------

  /** The line holds, once each, exactly the keys that need work and have no worker. */
  ghost predicate Valid(q: Queue) {
    && (forall i, j :: 0 <= i < j < |q.line| ==> q.line[i] != q.line[j])
    && (forall k :: k in q.line <==> k in q.dirty && k !in q.processing)
  }

  /** Counts and delayed additions do not matter to the line. */
  lemma SameLineIsValid(q: Queue, q': Queue)
    requires Valid(q) && q'.line == q.line && q'.dirty == q.dirty && q'.processing == q.processing
    ensures Valid(q')
  {
  }

  lemma AddKeepsValid(q: Queue, k: Key)
    requires Valid(q)
    ensures Valid(Add(q, k)) && Add(q, k).processing == q.processing
  {
  }

  lemma AddRateLimitedKeepsValid(q: Queue, k: Key, delayed: bool)
    requires Valid(q)
    ensures Valid(AddRateLimited(q, k, delayed)) && AddRateLimited(q, k, delayed).processing == q.processing
  {
    AddKeepsValid(q.(failures := q.failures[k := Requeues(q, k) + 1]), k);
  }

  lemma TakeKeepsValid(q: Queue)
    requires Valid(q) && q.line != []
    ensures Valid(Take(q)) && q.line[0] !in q.processing
  {
    var q' := Take(q);
    forall k ensures k in q'.line <==> k in q'.dirty && k !in q'.processing {
      if k in q.line {
        var i :| 0 <= i < |q.line| && q.line[i] == k;
        if i > 0 { assert q'.line[i - 1] == k; }
      }
    }
  }

  lemma DoneKeepsValid(q: Queue, k: Key)
    requires Valid(q) && k in q.processing
    ensures Valid(Done(q, k))
  {
    assert k !in q.line;
  }

  // ---------- One key at a time ----------

  /** What a queue knows of one key. */
  datatype Slot = Slot(waiting: nat, dirty: bool, processing: bool, failures: nat) {
    /** The key has, or is due for, a worker. */
    predicate Present() { waiting > 0 || dirty || processing }
  }

  function SlotOf(q: Queue, k: Key): Slot {
    Slot(q.waiting[k], k in q.dirty, k in q.processing, Requeues(q, k))
  }

  function AddSlot(s: Slot): Slot { s.(dirty := true) }

  function TakeSlot(s: Slot): Slot { s.(dirty := false, processing := true) }

  function DoneSlot(s: Slot): Slot { s.(processing := false) }

  function ForgetSlot(s: Slot): Slot { s.(failures := 0) }

  function AddRateLimitedSlot(s: Slot, delayed: bool): Slot {
    if delayed then s.(failures := s.failures + 1, waiting := s.waiting + 1)
    else s.(failures := s.failures + 1, dirty := true)
  }

  function ComeDueSlot(s: Slot, n: nat): Slot
    requires 0 < n <= s.waiting
  {
    s.(waiting := s.waiting - n, dirty := true)
  }

  /**
    Until it shuts down, the queue treats every key as if it were alone: an operation on `k` acts
    on its slot and on no other, and a key is in line for a worker exactly when its slot says so.
   */
  lemma KeysAreIndependent(q: Queue, k: Key, other: Key, delayed: bool, n: nat)
    requires Valid(q) && !q.shuttingDown
    ensures SlotOf(Add(q, k), other) == if other == k then AddSlot(SlotOf(q, k)) else SlotOf(q, other)
    ensures SlotOf(Done(q, k), other) == if other == k then DoneSlot(SlotOf(q, k)) else SlotOf(q, other)
    ensures SlotOf(Forget(q, k), other) == if other == k then ForgetSlot(SlotOf(q, k)) else SlotOf(q, other)
    ensures SlotOf(AddRateLimited(q, k, delayed), other) ==
            if other == k then AddRateLimitedSlot(SlotOf(q, k), delayed) else SlotOf(q, other)
    ensures 0 < n <= q.waiting[k] ==>
            SlotOf(ComeDue(q, k, n), other) == if other == k then ComeDueSlot(SlotOf(q, k), n) else SlotOf(q, other)
    ensures q.line != [] && q.line[0] == k ==>
            SlotOf(Take(q), other) == if other == k then TakeSlot(SlotOf(q, k)) else SlotOf(q, other)
    ensures k in q.line <==> SlotOf(q, k).dirty && !SlotOf(q, k).processing
  {
  }

  // ---------- The queue object ----------

  class RateLimitingQueue {
    var line: seq<Key>
    var dirty: set<Key>
    var processing: set<Key>
    var waiting: multiset<Key>
    var failures: map<Key, nat>
    var shuttingDown: bool

    function Value(): Queue
      reads this
    {
      Queue(line, dirty, processing, waiting, failures, shuttingDown)
    }

    constructor ()
      ensures Value() == EMPTY
    {
      line, dirty, processing, waiting, failures, shuttingDown := [], {}, {}, multiset{}, map[], false;
    }

    method Put(k: Key)
      modifies this
      ensures Value() == Add(old(Value()), k)
    {
      if shuttingDown {
        return;
      }
      if k in dirty {
        return;
      }
      dirty := dirty + {k};
      if k in processing {
        return;
      }
      line := line + [k];
    }

    /** Without a key in line the caller waits, or is told to quit. */
    method Get() returns (key: Option<Key>)
      requires line != [] || shuttingDown
      modifies this
      ensures old(line) == [] ==> key.None? && Value() == old(Value())
      ensures old(line) != [] ==> key == Some(old(line)[0]) && Value() == Take(old(Value()))
    {
      if line == [] {
        return None;
      }
      var k := line[0];
      line := line[1..];
      processing := processing + {k};
      dirty := dirty - {k};
      return Some(k);
    }

    method MarkDone(k: Key)
      modifies this
      ensures Value() == Done(old(Value()), k)
    {
      processing := processing - {k};
      if k in dirty {
        line := line + [k];
      }
    }

    method ForgetFailures(k: Key)
      modifies this
      ensures Value() == Forget(old(Value()), k)
    {
      failures := failures - {k};
    }

    method PutRateLimited(k: Key, delayed: bool)
      modifies this
      ensures Value() == AddRateLimited(old(Value()), k, delayed)
    {
      failures := failures[k := (if k in failures then failures[k] else 0) + 1];
      if shuttingDown {
        return;
      }
      if !delayed {
        Put(k);
        return;
      }
      waiting := waiting + multiset{k};
    }
  }
}
