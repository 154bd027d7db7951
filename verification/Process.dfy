/** The process state and the methods that work on it: a poll of KEB, and one turn of a worker. */
module Process {
  import opened Domain
  import opened WorkQueue
  import opened ClusterTracking
  import C = Collector
  import P = Payload

  /** What the cache can hold for a key: the untyped cache would also accept something that is not a record. */
  datatype CacheItem = RecordItem(record: Record) | BadItem

  type Cache = map<string, CacheItem>

  /** A runtime of the page together with the verdict reached on it. */
  datatype Decided = Decided(rt: Runtime, trackable: bool)

  datatype PollState = PollState(cache: Cache, queue: Queue)

  function NewRecord(rt: Runtime): Record
  {
    Record(InfoOf(rt), map[])
  }

  predicate SkipRuntime(filtered: set<string>, rt: Runtime)
  {
    rt.globalAccountID in filtered
  }

  /** Runtimes on which a poll acts. */
  predicate Considered(filtered: set<string>, rt: Runtime)
  {
    rt.subAccountID != "" && !SkipRuntime(filtered, rt)
  }

  function Lookup(cache: Cache, k: string): Option<CacheItem>
  {
    if k in cache then Some(cache[k]) else None
  }

  /** The item of a key after one considered runtime of that key. */
  function Decide(found: Option<CacheItem>, d: Decided): Option<CacheItem>
  {
    if !d.trackable then None
    else match found
      case None => Some(RecordItem(NewRecord(d.rt)))
      case Some(BadItem) => found
      case Some(RecordItem(r)) =>
        if r.info.shootName == d.rt.shootName then found else Some(RecordItem(NewRecord(d.rt)))
  }

  function ReconcileOne(filtered: set<string>, st: PollState, d: Decided): PollState
  {
    var k := d.rt.subAccountID;
    if !Considered(filtered, d.rt) then st
    else
      match Decide(Lookup(st.cache, k), d)
      case None => st.(cache := st.cache - {k})
      case Some(item) =>
        PollState(st.cache[k := item], if k in st.cache then st.queue else Add(st.queue, k))
  }

  /** The first loop of a poll after n runtimes. */
  function ReconcileTo(filtered: set<string>, st: PollState, page: seq<Decided>, n: nat): PollState
    requires n <= |page|
  {
    if n == 0 then st else ReconcileOne(filtered, ReconcileTo(filtered, st, page, n - 1), page[n - 1])
  }

  /** Sub-accounts KEB still reports, skipped ones included. */
  function Reported(page: seq<Decided>, n: nat): set<string>
    requires n <= |page|
  {
    set i | 0 <= i < n && page[i].rt.subAccountID != "" :: page[i].rt.subAccountID
  }

  /** A whole poll: the loop, then removal of what KEB no longer reports. */
  function Reconcile(filtered: set<string>, st: PollState, page: seq<Decided>): PollState
  {
    var looped := ReconcileTo(filtered, st, page, |page|);
    looped.(cache := looped.cache - (looped.cache.Keys - Reported(page, |page|)))
  }

  /** A verdict the poll may reach on a runtime; a skipped runtime counts as not trackable. */
  ghost predicate MayDecide(filtered: set<string>, rt: Runtime, b: bool)
  {
    if Considered(filtered, rt) then MayBeTrackable(rt, b) else !b
  }

  ghost predicate VerdictsOf(filtered: set<string>, page: seq<Runtime>, decided: seq<Decided>)
  {
    && |decided| == |page|
    && forall i :: 0 <= i < |page| ==> decided[i].rt == page[i] && MayDecide(filtered, page[i], decided[i].trackable)
  }

  /** How far a worker gets with a record: it may fail before it has clients for the cluster. */
  datatype Attempt = NoClients | Scrape(outcomes: seq<Option<Scan>>, sendOk: bool)

  datatype Turn = Requeue | NoRequeue | Crash

  /** Outcome of processing a key that is cached as a record: the record to write back, or None after an error. */
  function Processed(scanners: seq<ScannerID>, edp: C.Edp, record: Record, a: Attempt): Option<Record>
    requires a.Scrape? ==> |a.outcomes| == |scanners|
  {
    if a.NoClients? then None
    else
      var o := C.Collect(scanners, edp, a.outcomes, a.sendOk, record.scanMap);
      if o.ok then Some(record.(scanMap := o.scans)) else None
  }

  class Process {
    var cache: Cache
    var queue: Queue
    const filtered: set<string>
    const interval: int
    const collector: C.Collector

    constructor (filtered: set<string>, interval: int, collector: C.Collector)
      ensures cache == map[] && queue == EMPTY
      ensures this.filtered == filtered && this.interval == interval && this.collector == collector
    {
      cache, queue := map[], EMPTY;
      this.filtered, this.interval, this.collector := filtered, interval, collector;
    }

    method PopulateCacheAndQueue(runtimes: seq<Runtime>) returns (decided: seq<Decided>)
      modifies this`cache, this`queue
      ensures VerdictsOf(filtered, runtimes, decided)
      ensures PollState(cache, queue) == Reconcile(filtered, old(PollState(cache, queue)), decided)
    {
      var validSubAccounts: set<string> := {};
      decided := [];
      ghost var st := PollState(cache, queue);
      for i := 0 to |runtimes|
        invariant VerdictsOf(filtered, runtimes[..i], decided)
        invariant validSubAccounts == Reported(decided, i)
        invariant PollState(cache, queue) == ReconcileTo(filtered, st, decided, i)
      {
        var rt := runtimes[i];
        if rt.subAccountID != "" { validSubAccounts := validSubAccounts + {rt.subAccountID}; }
        var trackable := HandleRuntime(rt);
        OneMore(filtered, st, runtimes[..i], decided, rt, trackable);
        assert runtimes[..i] + [rt] == runtimes[..i + 1];
        decided := decided + [Decided(rt, trackable)];
      }
      assert runtimes[..|runtimes|] == runtimes;
      CleanUp(validSubAccounts);
    }

    /** One turn of the loop. */
    method HandleRuntime(rt: Runtime) returns (trackable: bool)
      modifies this`cache, this`queue
      ensures MayDecide(filtered, rt, trackable)
      ensures PollState(cache, queue) == ReconcileOne(filtered, old(PollState(cache, queue)), Decided(rt, trackable))
    {
      if rt.subAccountID == "" { return false; }
      if SkipRuntime(filtered, rt) { return false; }
      trackable := IsRuntimeTrackable(rt);
      ReconcileRuntime(rt, trackable);
    }

    /** The body of the loop for a runtime that is not skipped. */
    method ReconcileRuntime(rt: Runtime, trackable: bool)
      requires Considered(filtered, rt)
      modifies this`cache, this`queue
      ensures PollState(cache, queue) == ReconcileOne(filtered, old(PollState(cache, queue)), Decided(rt, trackable))
    {
      var k := rt.subAccountID;
      var found := Lookup(cache, k);
      if trackable {
        var newRecord := NewRecord(rt);
        if found.None? {
          cache := cache[k := RecordItem(newRecord)];
          queue := Add(queue, k);
        } else if found.value.RecordItem? {
          if found.value.record.info.shootName != rt.shootName {
            cache := cache[k := RecordItem(newRecord)];
          } else {
            assert cache[k := found.value] == cache;
          }
        } else {
          assert cache[k := found.value] == cache;
        }
      } else if found.Some? {
        cache := cache - {k};
      } else {
        assert cache - {k} == cache;
      }
    }

    /** The second loop of a poll. */
    method CleanUp(validSubAccounts: set<string>)
      modifies this`cache
      ensures cache == old(cache) - (old(cache).Keys - validSubAccounts)
    {
      var items := cache.Keys;
      while items != {}
        invariant items <= old(cache).Keys
        invariant cache == old(cache) - (old(cache).Keys - items - validSubAccounts)
        decreases items
      {
        var k :| k in items;
        if k !in validSubAccounts { cache := cache - {k}; }
        items := items - {k};
      }
    }

    /** `a` stands for what the cluster and the backend answer, `now` for the time of the pass. */
    method ProcessSubAccountID(k: string, now: string, a: Attempt) returns (turn: Turn, sent: Option<P.Payload>)
      requires a.Scrape? ==> |a.outcomes| == |collector.scanners|
      modifies this`cache, this`queue, collector
      ensures k !in old(cache) ==> turn == NoRequeue && cache == old(cache) && queue == old(queue)
      ensures k in old(cache) && old(cache)[k].BadItem? ==> turn == Crash && cache == old(cache)
      ensures k in old(cache) && old(cache)[k].RecordItem? ==>
                match Processed(collector.scanners, collector.edp, old(cache)[k].record, a)
                case None => turn == NoRequeue && cache == old(cache) && queue == AddAfter(old(queue), k, interval)
                case Some(r) => turn == Requeue && cache == old(cache)[r.info.subAccountID := RecordItem(r)] && queue == old(queue)
      // what is sent names the cluster of the record, and a turn that succeeds has sent something the backend accepted
      ensures sent.Some? ==>
                && k in old(cache) && old(cache)[k].RecordItem? && var info := old(cache)[k].record.info;
                && sent.value.runtimeID == info.runtimeID && sent.value.subAccountID == info.subAccountID
                && sent.value.shootName == info.shootName && sent.value.timestamp == now
      ensures turn == Requeue ==> sent.Some? && a.Scrape? && a.sendOk
    {
      sent := None;
      if k !in cache { return NoRequeue, sent; }
      var item := cache[k];
      if item.BadItem? {
        queue := AddAfter(queue, k, interval);
        return Crash, sent;
      }
      var record := item.record;
      if a.NoClients? {
        queue := AddAfter(queue, k, interval);
        return NoRequeue, sent;
      }
      var newScans, ok, payload, order, ms := collector.CollectAndSend(record.info, now, a.outcomes, a.sendOk, record.scanMap);
      sent := payload;
      if !ok {
        queue := AddAfter(queue, k, interval);
        return NoRequeue, sent;
      }
      record := record.(scanMap := newScans);
      cache := cache[record.info.subAccountID := RecordItem(record)];
      return Requeue, sent;
    }

    /** One round of the worker loop, taken without interruption. */
    method ExecuteOnce(now: string, a: Attempt) returns (k: string, turn: Turn)
      requires queue.ready != []
      requires a.Scrape? ==> |a.outcomes| == |collector.scanners|
      modifies this`cache, this`queue, collector
      ensures k == old(queue).ready[0]
      ensures k !in old(cache) ==> cache == old(cache) && queue == Done(Get(old(queue)), k)
      ensures k in old(cache) && old(cache)[k].BadItem? ==> turn == Crash
      ensures k in old(cache) && old(cache)[k].RecordItem? ==>
                match Processed(collector.scanners, collector.edp, old(cache)[k].record, a)
                case None => cache == old(cache) && queue == Done(AddAfter(Get(old(queue)), k, interval), k)
                case Some(r) =>
                  cache == old(cache)[r.info.subAccountID := RecordItem(r)] && queue == AddAfter(Done(Get(old(queue)), k), k, interval)
    {
      k := queue.ready[0];
      queue := Get(queue);
      var sent;
      turn, sent := ProcessSubAccountID(k, now, a);
      if turn == Crash { return; }
      queue := Done(queue, k);
      if turn == Requeue { queue := AddAfter(queue, k, interval); }
    }
  }

  /** One more runtime with its verdict. */
  lemma OneMore(filtered: set<string>, st: PollState, page: seq<Runtime>, decided: seq<Decided>, rt: Runtime, b: bool)
    requires VerdictsOf(filtered, page, decided) && MayDecide(filtered, rt, b)
    ensures var more, n := decided + [Decided(rt, b)], |decided|;
            && VerdictsOf(filtered, page + [rt], more)
            && Reported(more, n + 1) == Reported(decided, n) + (if rt.subAccountID == "" then {} else {rt.subAccountID})
            && ReconcileTo(filtered, st, more, n + 1) == ReconcileOne(filtered, ReconcileTo(filtered, st, decided, n), Decided(rt, b))
  {
    var more, n := decided + [Decided(rt, b)], |decided|;
    ReconcilePrefix(filtered, st, decided, more, n);
    assert more[n] == Decided(rt, b);
    assert Reported(more, n + 1) == Reported(more, n) + (if rt.subAccountID == "" then {} else {rt.subAccountID});
  }

  lemma {:induction false} ReconcilePrefix(filtered: set<string>, st: PollState, a: seq<Decided>, b: seq<Decided>, n: nat)
    requires n <= |a| && n <= |b| && a[..n] == b[..n]
    ensures ReconcileTo(filtered, st, a, n) == ReconcileTo(filtered, st, b, n)
    ensures Reported(a, n) == Reported(b, n)
  {
    assert forall i :: 0 <= i < n ==> a[i] == a[..n][i] == b[..n][i] == b[i];
    if n > 0 {
      assert a[..n - 1] == a[..n][..n - 1] && b[..n - 1] == b[..n][..n - 1];
      ReconcilePrefix(filtered, st, a, b, n - 1);
    }
  }
}
