/** The contract of the client-go delaying work queue that the collector relies on.
    `dirty` holds what must be processed, `processing` what is held between Get and Done, `ready` what Get can
    hand out, and `delayed` what AddAfter has parked until its timer fires. */
module WorkQueue {
  import opened Domain

  datatype Queue = Queue(ready: seq<string>, dirty: set<string>, processing: set<string>, delayed: set<string>)

  const EMPTY := Queue([], {}, {}, {})

  /** Ready are exactly the dirty keys that nobody holds, each once. */
  ghost predicate Valid(q: Queue)
  {
    && Distinct(q.ready)
    && (forall k :: k in q.ready <==> k in q.dirty && k !in q.processing)
  }

  /** A key already marked dirty is not queued again; one that is being processed waits for its Done. */
  function Add(q: Queue, k: string): Queue
  {
    if k in q.dirty then q
    else if k in q.processing then q.(dirty := q.dirty + {k})
    else q.(dirty := q.dirty + {k}, ready := q.ready + [k])
  }

  /** Hands out the first ready key. */
  function Get(q: Queue): Queue
    requires q.ready != []
  {
    var k := q.ready[0];
    q.(ready := q.ready[1..], dirty := q.dirty - {k}, processing := q.processing + {k})
  }

  /** Releases a key, and queues it again if it was added meanwhile. */
  function Done(q: Queue, k: string): Queue
  {
    var released := q.(processing := q.processing - {k});
    if k in q.dirty then released.(ready := q.ready + [k]) else released
  }

  /** A delay that is not positive adds at once. */
  function AddAfter(q: Queue, k: string, interval: int): Queue
  {
    if interval <= 0 then Add(q, k) else q.(delayed := q.delayed + {k})
  }

  /** The timer of a parked key. */
  function Fire(q: Queue, k: string): Queue
  {
    Add(q.(delayed := q.delayed - {k}), k)
  }

  lemma AddValid(q: Queue, k: string)
    requires Valid(q)
    ensures Valid(Add(q, k)) && k in Add(q, k).dirty
  {
  }

  lemma GetValid(q: Queue)
    requires Valid(q) && q.ready != []
    ensures Valid(Get(q)) && q.ready[0] !in q.processing
  {
    var k := q.ready[0];
    assert k in q.ready;
    forall x ensures x in q.ready[1..] <==> x in q.ready && x != k {
      assert q.ready == [k] + q.ready[1..];
    }
  }

  lemma DoneValid(q: Queue, k: string)
    requires Valid(q) && k in q.processing
    ensures Valid(Done(q, k))
  {
  }
}
