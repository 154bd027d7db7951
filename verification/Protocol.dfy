/** The poller and any number of workers sharing one cache and one queue, as a step relation.
    Every access to the cache or the queue is a step of its own; steps of different goroutines interleave freely. */
module Protocol {
  import opened Domain
  import opened ClusterTracking
  import opened Process
  import Q = WorkQueue
  import C = Collector

  datatype Config = Config(scanners: seq<ScannerID>, edp: C.Edp, filtered: set<string>, interval: int)

  /** Where a worker is with its key. */
  datatype PC =
    | Idle
    | Got(key: string)                        // has the key, has not read the cache
    | Missed(key: string)                     // read the cache, key absent
    | Holding(key: string, record: Record)    // read the record, about to collect
    | Collected(key: string, record: Record)  // collected without error, about to write back
    | Failed(key: string)                     // some error, about to re-schedule
    | Requeued(key: string)                   // re-scheduled after an error, about to call Done
    | Written(key: string)                    // wrote back, about to call Done
    | Owes(key: string)                       // called Done, about to re-schedule

  /** Account of a worker's current or latest hold: was the key cached when read, and how often was it re-scheduled. */
  datatype Hold = Hold(cached: bool, readds: nat)

  datatype Worker = Worker(pc: PC, hold: Hold)

  datatype Poller =
    | Sleeping
    | Scanning(todo: seq<Runtime>, valid: set<string>)
    | Read(rt: Runtime, found: Option<CacheItem>, todo: seq<Runtime>, valid: set<string>)
    | Added(rt: Runtime, todo: seq<Runtime>, valid: set<string>)
    | Cleaning(doomed: set<string>)

  /** A payload built by a pass: for whom, from which scans, the scans the record held before, whether the backend
      accepted it, and whether the pass ended without error. */
  datatype Bill = Bill(info: Info, pass: nat, scans: ScanMap, base: ScanMap, accepted: bool, ok: bool)

  /** The last record written back to a key, and the runtime for which the poller has replaced it since, if any. */
  datatype Restored = Restored(record: Record, renamed: Option<Runtime>)

  /** Every runtime any poll listed and every verdict reached; and of the current or latest poll, the cache it
      started from, the runtimes it has passed with its verdicts, and what was written back since it started and
      not removed since. */
  datatype Polls = Polls(listed: set<Runtime>, verdicts: set<Decided>, start: Cache, decided: seq<Decided>, restored: map<string, Restored>)

  const NO_POLLS := Polls({}, {}, map[], [], map[])

  /** `polls`, `passes` and `bills` record the history of the run and steer nothing. */
  datatype State = State(
    cache: Cache,
    queue: Q.Queue,
    workers: seq<Worker>,
    poller: Poller,
    crashed: bool,
    polls: Polls,
    passes: nat,
    bills: seq<Bill>)

  datatype Action =
    | StartPoll(page: seq<Runtime>) | NextRuntime | DecideOn(trackable: bool) | Enqueue
    | BeginCleanup | CleanUp(key: string) | EndCleanup
    | Fire(key: string)
    | Get(w: nat) | ReadCache(w: nat) | Fail(w: nat) | Collect(w: nat, outcomes: seq<Option<Scan>>, sendOk: bool)
    | WriteBack(w: nat) | Requeue(w: nat) | Finish(w: nat) | ReAdd(w: nat)

  const FRESH_WORKER := Worker(Idle, Hold(false, 0))

  function Init(n: nat): State
  {
    State(map[], Q.EMPTY, seq(n, _ => FRESH_WORKER), Sleeping, false, NO_POLLS, 0, [])
  }

  /** A scan taken in the given pass, for the given cluster. */
  predicate TakenIn(outcomes: seq<Option<Scan>>, pass: nat, info: Info)
  {
    forall i :: 0 <= i < |outcomes| && outcomes[i].Some? ==> outcomes[i].value.pass == pass && outcomes[i].value.info == info
  }

  ghost predicate Enabled(cfg: Config, s: State, a: Action)
  {
    && !s.crashed
    && match a
       case StartPoll(_) => s.poller.Sleeping?
       case NextRuntime => s.poller.Scanning? && s.poller.todo != []
       case DecideOn(b) => s.poller.Read? && MayDecide(cfg.filtered, s.poller.rt, b)
       case Enqueue => s.poller.Added?
       case BeginCleanup => s.poller.Scanning? && s.poller.todo == []
       case CleanUp(k) => s.poller.Cleaning? && k in s.poller.doomed
       case EndCleanup => s.poller.Cleaning? && s.poller.doomed == {}
       case Fire(k) => k in s.queue.delayed
       case Get(w) => w < |s.workers| && s.workers[w].pc.Idle? && s.queue.ready != []
       case ReadCache(w) => w < |s.workers| && s.workers[w].pc.Got?
       case Fail(w) => w < |s.workers| && s.workers[w].pc.Holding?
       case Collect(w, outcomes, _) =>
         && w < |s.workers| && s.workers[w].pc.Holding? && |outcomes| == |cfg.scanners|
         && TakenIn(outcomes, s.passes, s.workers[w].pc.record.info)
       case WriteBack(w) => w < |s.workers| && s.workers[w].pc.Collected?
       case Requeue(w) => w < |s.workers| && s.workers[w].pc.Failed?
       case Finish(w) => w < |s.workers| && (s.workers[w].pc.Missed? || s.workers[w].pc.Requeued? || s.workers[w].pc.Written?)
       case ReAdd(w) => w < |s.workers| && s.workers[w].pc.Owes?
  }

  function WithPC(s: State, w: nat, pc: PC): State
    requires w < |s.workers|
  {
    s.(workers := s.workers[w := s.workers[w].(pc := pc)])
  }

  function WithReadd(s: State, w: nat, pc: PC): State
    requires w < |s.workers|
  {
    var hold := s.workers[w].hold;
    s.(workers := s.workers[w := Worker(pc, hold.(readds := hold.readds + 1))])
  }

  /** Cache.Add puts a new record in and queueing follows; it refuses a key that a worker has written meanwhile,
      and queueing is then skipped. */
  predicate Adds(cfg: Config, s: State, trackable: bool)
    requires s.poller.Read?
  {
    !SkipRuntime(cfg.filtered, s.poller.rt) && trackable && s.poller.found.None? && s.poller.rt.subAccountID !in s.cache
  }

  /** Cache.Delete takes out a key that was found and is not trackable. */
  predicate Removes(cfg: Config, s: State, trackable: bool)
    requires s.poller.Read?
  {
    !SkipRuntime(cfg.filtered, s.poller.rt) && !trackable && s.poller.found.Some?
  }

  /** Cache.Set replaces a record that was found under another shoot name. */
  predicate Renames(cfg: Config, s: State, trackable: bool)
    requires s.poller.Read?
  {
    && !SkipRuntime(cfg.filtered, s.poller.rt) && trackable
    && s.poller.found.Some? && s.poller.found.value.RecordItem?
    && s.poller.found.value.record.info.shootName != s.poller.rt.shootName
  }

  function DecidedCache(cfg: Config, s: State, trackable: bool): Cache
    requires s.poller.Read?
  {
    var k := s.poller.rt.subAccountID;
    if Adds(cfg, s, trackable) || Renames(cfg, s, trackable) then s.cache[k := RecordItem(NewRecord(s.poller.rt))]
    else if Removes(cfg, s, trackable) then s.cache - {k}
    else s.cache
  }

  function RestoredAfter(cfg: Config, s: State, trackable: bool): map<string, Restored>
    requires s.poller.Read?
  {
    var k, restored := s.poller.rt.subAccountID, s.polls.restored;
    if Removes(cfg, s, trackable) then restored - {k}
    else if k in restored && Renames(cfg, s, trackable) then restored[k := restored[k].(renamed := Some(s.poller.rt))]
    else restored
  }

  function DecidedPoller(cfg: Config, s: State, trackable: bool): Poller
    requires s.poller.Read?
  {
    var Read(rt, _, todo, valid) := s.poller;
    if Adds(cfg, s, trackable) then Added(rt, todo, valid) else Scanning(todo, valid)
  }

  function ApplyCollect(cfg: Config, s: State, w: nat, outcomes: seq<Option<Scan>>, sendOk: bool): State
    requires w < |s.workers| && s.workers[w].pc.Holding? && |outcomes| == |cfg.scanners|
  {
    var Holding(k, r) := s.workers[w].pc;
    var o := C.Collect(cfg.scanners, cfg.edp, outcomes, sendOk, r.scanMap);
    WithPC(s, w, if o.ok then Collected(k, r.(scanMap := o.scans)) else Failed(k)).(
      passes := s.passes + 1,
      bills := if o.billed then s.bills + [Bill(r.info, s.passes, o.scans, r.scanMap, sendOk, o.ok)] else s.bills)
  }

  /** The poll has started on a page. */
  function Started(s: State, page: seq<Runtime>): Polls
  {
    Polls(s.polls.listed + (set rt | rt in page), s.polls.verdicts, s.cache, [], map[])
  }

  /** The poll is done with a runtime. */
  function Passed(polls: Polls, d: Decided, restored: map<string, Restored>): Polls
  {
    polls.(decided := polls.decided + [d], verdicts := polls.verdicts + {d}, restored := restored)
  }

  function Apply(cfg: Config, s: State, a: Action): State
    requires Enabled(cfg, s, a)
  {
    match a
    case StartPoll(page) => s.(poller := Scanning(page, {}), polls := Started(s, page))
    case NextRuntime =>
      var rt, todo := s.poller.todo[0], s.poller.todo[1..];
      if rt.subAccountID == "" then
        s.(poller := Scanning(todo, s.poller.valid), polls := Passed(s.polls, Decided(rt, false), s.polls.restored))
      else s.(poller := Read(rt, Lookup(s.cache, rt.subAccountID), todo, s.poller.valid + {rt.subAccountID}))
    case DecideOn(b) =>
      s.(cache := DecidedCache(cfg, s, b), poller := DecidedPoller(cfg, s, b),
         polls := Passed(s.polls, Decided(s.poller.rt, b), RestoredAfter(cfg, s, b)))
    case Enqueue =>
      s.(queue := Q.Add(s.queue, s.poller.rt.subAccountID), poller := Scanning(s.poller.todo, s.poller.valid))
    case BeginCleanup => s.(poller := Cleaning(s.cache.Keys - s.poller.valid))
    case CleanUp(k) =>
      s.(cache := s.cache - {k}, poller := Cleaning(s.poller.doomed - {k}),
         polls := s.polls.(restored := s.polls.restored - {k}))
    case EndCleanup => s.(poller := Sleeping)
    case Fire(k) => s.(queue := Q.Fire(s.queue, k))
    case Get(w) =>
      s.(queue := Q.Get(s.queue), workers := s.workers[w := Worker(Got(s.queue.ready[0]), Hold(false, 0))])
    case ReadCache(w) =>
      var k := s.workers[w].pc.key;
      if k !in s.cache then WithPC(s, w, Missed(k))
      else (match s.cache[k]
            case BadItem => s.(crashed := true, queue := Q.AddAfter(s.queue, k, cfg.interval))
            case RecordItem(r) => s.(workers := s.workers[w := Worker(Holding(k, r), Hold(true, 0))]))
    case Fail(w) => WithPC(s, w, Failed(s.workers[w].pc.key))
    case Collect(w, outcomes, sendOk) => ApplyCollect(cfg, s, w, outcomes, sendOk)
    case WriteBack(w) =>
      var Collected(k, r) := s.workers[w].pc;
      WithPC(s, w, Written(k)).(
        cache := s.cache[r.info.subAccountID := RecordItem(r)],
        polls := s.polls.(restored := s.polls.restored[r.info.subAccountID := Restored(r, None)]))
    case Requeue(w) =>
      var k := s.workers[w].pc.key;
      WithReadd(s, w, Requeued(k)).(queue := Q.AddAfter(s.queue, k, cfg.interval))
    case Finish(w) =>
      var pc := s.workers[w].pc;
      WithPC(s, w, if pc.Written? then Owes(pc.key) else Idle).(queue := Q.Done(s.queue, pc.key))
    case ReAdd(w) =>
      WithReadd(s, w, Idle).(queue := Q.AddAfter(s.queue, s.workers[w].pc.key, cfg.interval))
  }

  // Runs.

  ghost predicate Legal(cfg: Config, s: State, run: seq<Action>)
    decreases |run|
  {
    run == [] || (Enabled(cfg, s, run[0]) && Legal(cfg, Apply(cfg, s, run[0]), run[1..]))
  }

  ghost function Run(cfg: Config, s: State, run: seq<Action>): State
    requires Legal(cfg, s, run)
    decreases |run|
  {
    if run == [] then s else Run(cfg, Apply(cfg, s, run[0]), run[1..])
  }

  ghost predicate Leads(cfg: Config, s: State, run: seq<Action>, t: State)
  {
    Legal(cfg, s, run) && Run(cfg, s, run) == t
  }

  lemma {:induction false} LeadsOn(cfg: Config, s: State, a: seq<Action>, t: State, b: seq<Action>, u: State)
    requires Leads(cfg, s, a, t) && Leads(cfg, t, b, u)
    ensures Leads(cfg, s, a + b, u)
    decreases |a|
  {
    if a == [] {
      assert a + b == b;
    } else {
      LeadsOn(cfg, Apply(cfg, s, a[0]), a[1..], t, b, u);
      assert (a + b)[1..] == a[1..] + b;
    }
  }

  lemma LeadsOne(cfg: Config, s: State, a: Action)
    requires Enabled(cfg, s, a)
    ensures Leads(cfg, s, [a], Apply(cfg, s, a))
  {
    assert [a][1..] == [];
  }

  /** One more step at the end of a run. */
  lemma LeadsStep(cfg: Config, s: State, run: seq<Action>, t: State, a: Action)
    requires Leads(cfg, s, run, t) && Enabled(cfg, t, a)
    ensures Leads(cfg, s, run + [a], Apply(cfg, t, a))
  {
    LeadsOne(cfg, t, a);
    LeadsOn(cfg, s, run, t, [a], Apply(cfg, t, a));
  }

  // Invariant: exclusive holds.

  predicate InHold(pc: PC)
  {
    !pc.Idle? && !pc.Owes?
  }

  ghost predicate Holds(s: State, w: nat, k: string)
  {
    w < |s.workers| && InHold(s.workers[w].pc) && s.workers[w].pc.key == k
  }

  /** The keys in processing are the keys held, each by one worker. */
  ghost predicate Exclusive(s: State)
  {
    && Q.Valid(s.queue)
    && (forall w: nat, k :: Holds(s, w, k) ==> k in s.queue.processing)
    && (forall k :: k in s.queue.processing ==> exists w: nat :: Holds(s, w, k))
    && (forall v: nat, w: nat, k :: Holds(s, v, k) && Holds(s, w, k) ==> v == w)
  }

  // Invariant: nothing is lost.

  /** The worker has the key and will yet read the cache for it, or re-schedule it. */
  predicate Promises(pc: PC, k: string)
  {
    !pc.Idle? && !pc.Missed? && !pc.Requeued? && pc.key == k
  }

  ghost predicate Promised(s: State, k: string)
  {
    exists w: nat :: w < |s.workers| && Promises(s.workers[w].pc, k)
  }

  ghost predicate Covered(s: State, k: string)
  {
    || k in s.queue.dirty
    || k in s.queue.delayed
    || Promised(s, k)
    || (s.poller.Added? && s.poller.rt.subAccountID == k)
  }

  ghost predicate NothingLost(s: State)
  {
    forall k :: k in s.cache ==> Covered(s, k)
  }

  // Invariant: where the poller stands.

  ghost predicate PollerSane(s: State)
  {
    match s.poller
    case Scanning(todo, _) => forall i :: 0 <= i < |todo| ==> todo[i] in s.polls.listed
    case Read(rt, found, todo, _) =>
      && rt in s.polls.listed && rt.subAccountID != ""
      && (found.Some? ==> rt.subAccountID in s.cache)
      && forall i :: 0 <= i < |todo| ==> todo[i] in s.polls.listed
    case Added(_, todo, _) => forall i :: 0 <= i < |todo| ==> todo[i] in s.polls.listed
    case _ => true
  }

  // Invariant: what records look like.

  /** All scans of one pass, all taken for the same cluster, complete and convertible. */
  ghost predicate SnapshotOf(cfg: Config, info: Info, scans: ScanMap, pass: nat)
  {
    && C.Complete(cfg.scanners, cfg.edp, scans)
    && forall id :: id in scans ==> scans[id].pass == pass && scans[id].info == info
  }

  /** Scans are all or nothing. */
  ghost predicate GoodScans(cfg: Config, passes: nat, info: Info, scans: ScanMap)
  {
    scans == map[] || exists pass :: 0 <= pass < passes && SnapshotOf(cfg, info, scans, pass)
  }

  /** Verdicts are on runtimes that some poll listed, and are what filter and sort allow. */
  ghost predicate GoodVerdicts(cfg: Config, s: State)
  {
    forall d :: d in s.polls.verdicts ==> d.rt in s.polls.listed && MayDecide(cfg.filtered, d.rt, d.trackable)
  }

  /** The identity is that of a runtime some poll found trackable. */
  ghost predicate FromPoll(verdicts: set<Decided>, info: Info)
  {
    exists rt :: Decided(rt, true) in verdicts && InfoOf(rt) == info
  }

  ghost predicate GoodRecord(cfg: Config, s: State, k: string, r: Record)
  {
    && r.info.subAccountID == k && k != ""
    && r.info.globalAccountID !in cfg.filtered
    && FromPoll(s.polls.verdicts, r.info)
    && GoodScans(cfg, s.passes, r.info, r.scanMap)
  }

  ghost predicate GoodRecords(cfg: Config, s: State)
  {
    && (forall k :: k in s.cache ==> s.cache[k].RecordItem? && GoodRecord(cfg, s, k, s.cache[k].record))
    && (forall w :: 0 <= w < |s.workers| && (s.workers[w].pc.Holding? || s.workers[w].pc.Collected?) ==>
          GoodRecord(cfg, s, s.workers[w].pc.key, s.workers[w].pc.record))
  }

  // Invariant: re-scheduling accounts.

  predicate GoodHold(w: Worker)
  {
    match w.pc
    case Idle => w.hold.readds == if w.hold.cached then 1 else 0
    case Got(_) | Missed(_) => !w.hold.cached && w.hold.readds == 0
    case Requeued(_) => w.hold.cached && w.hold.readds == 1
    case _ => w.hold.cached && w.hold.readds == 0
  }

  ghost predicate GoodHolds(s: State)
  {
    forall w :: 0 <= w < |s.workers| ==> GoodHold(s.workers[w])
  }

  // Invariant: bills.

  /** A bill for a cluster uses scans of that cluster only, taken in the billing pass or in one earlier complete
      pass; and if there is such an earlier pass, it covers every scanner. */
  ghost predicate GoodBill(cfg: Config, b: Bill)
  {
    && GoodScans(cfg, b.pass, b.info, b.base)
    && (b.base != map[] ==> C.Complete(cfg.scanners, cfg.edp, b.scans))
    && b.scans != map[] && C.AllConvert(cfg.edp, b.scans)
    && forall id :: id in b.scans ==>
         && b.scans[id].info == b.info
         && (b.scans[id].pass == b.pass || (id in b.base && b.scans[id] == b.base[id]))
  }

  ghost predicate GoodBills(cfg: Config, s: State)
  {
    forall i :: 0 <= i < |s.bills| ==> GoodBill(cfg, s.bills[i]) && FromPoll(s.polls.verdicts, s.bills[i].info)
  }

  ghost predicate Inv(cfg: Config, s: State)
  {
    && !s.crashed && Exclusive(s) && NothingLost(s) && PollerSane(s)
    && GoodVerdicts(cfg, s) && GoodRecords(cfg, s) && GoodHolds(s) && GoodBills(cfg, s)
  }
}
