/** Every step keeps the invariant, so every reachable state has it. */
module Safety {
  import opened Domain
  import opened ClusterTracking
  import opened Process
  import opened Protocol
  import Q = WorkQueue
  import C = Collector

  // Exclusive holds.

  /** Only worker w moved, and it holds the same keys as before. */
  lemma SameHolds(s: State, t: State, w: nat)
    requires Exclusive(s) && w < |s.workers| == |t.workers|
    requires forall v: nat :: v < |s.workers| && v != w ==> t.workers[v].pc == s.workers[v].pc
    requires InHold(s.workers[w].pc) == InHold(t.workers[w].pc)
    requires InHold(t.workers[w].pc) ==> s.workers[w].pc.key == t.workers[w].pc.key
    requires Q.Valid(t.queue) && t.queue.processing == s.queue.processing
    ensures Exclusive(t)
  {
    forall v: nat, k ensures Holds(t, v, k) <==> Holds(s, v, k) {}
  }

  lemma AddAfterValid(q: Q.Queue, k: string, interval: int)
    requires Q.Valid(q)
    ensures Q.Valid(Q.AddAfter(q, k, interval))
    ensures Q.AddAfter(q, k, interval).processing == q.processing
    ensures k in Q.AddAfter(q, k, interval).dirty + Q.AddAfter(q, k, interval).delayed
  {
    Q.AddValid(q, k);
  }

  lemma GetExclusive(cfg: Config, s: State, w: nat)
    requires Exclusive(s) && Enabled(cfg, s, Get(w))
    ensures Exclusive(Apply(cfg, s, Get(w)))
  {
    var t, key := Apply(cfg, s, Get(w)), s.queue.ready[0];
    Q.GetValid(s.queue);
    forall v: nat, k ensures Holds(t, v, k) <==> Holds(s, v, k) || (v == w && k == key) {}
    assert Holds(t, w, key);
  }

  lemma FinishExclusive(cfg: Config, s: State, w: nat)
    requires Exclusive(s) && Enabled(cfg, s, Finish(w))
    ensures Exclusive(Apply(cfg, s, Finish(w)))
  {
    var t, key := Apply(cfg, s, Finish(w)), s.workers[w].pc.key;
    assert Holds(s, w, key);
    Q.DoneValid(s.queue, key);
    forall v: nat, k ensures Holds(t, v, k) <==> Holds(s, v, k) && v != w {}
    assert forall k :: k in t.queue.processing <==> k in s.queue.processing && k != key;
  }

  lemma ExclusiveStep(cfg: Config, s: State, a: Action)
    requires Exclusive(s) && Enabled(cfg, s, a)
    ensures Exclusive(Apply(cfg, s, a))
  {
    var t := Apply(cfg, s, a);
    match a {
      case Get(w) => GetExclusive(cfg, s, w);
      case Finish(w) => FinishExclusive(cfg, s, w);
      case ReadCache(w) =>
        AddAfterValid(s.queue, s.workers[w].pc.key, cfg.interval);
        SameHolds(s, t, w);
      case Requeue(w) =>
        AddAfterValid(s.queue, s.workers[w].pc.key, cfg.interval);
        SameHolds(s, t, w);
      case ReAdd(w) =>
        AddAfterValid(s.queue, s.workers[w].pc.key, cfg.interval);
        SameHolds(s, t, w);
      case Fail(w) => SameHolds(s, t, w);
      case Collect(w, _, _) => SameHolds(s, t, w);
      case WriteBack(w) => SameHolds(s, t, w);
      case Enqueue => Q.AddValid(s.queue, s.poller.rt.subAccountID); QueueOnly(s, t);
      case Fire(k) => Q.AddValid(s.queue.(delayed := s.queue.delayed - {k}), k); QueueOnly(s, t);
      case _ => QueueOnly(s, t);
    }
  }

  lemma QueueOnly(s: State, t: State)
    requires Exclusive(s) && t.workers == s.workers
    requires Q.Valid(t.queue) && t.queue.processing == s.queue.processing
    ensures Exclusive(t)
  {
    forall v: nat, k ensures Holds(t, v, k) <==> Holds(s, v, k) {}
  }

  // Nothing is lost.

  /** Keys do not drop out of the queue except into a worker's hands. */
  lemma QueueKeeps(cfg: Config, s: State, a: Action, k: string)
    requires Exclusive(s) && Enabled(cfg, s, a)
    requires k in s.queue.dirty || k in s.queue.delayed
    ensures Covered(Apply(cfg, s, a), k)
  {
    var t := Apply(cfg, s, a);
    match a {
      case Get(w) => assert k == s.queue.ready[0] ==> Promises(t.workers[w].pc, k);
      case Fire(_) =>
      case Finish(_) =>
      case _ => assert k in t.queue.dirty || k in t.queue.delayed;
    }
  }

  /** A worker's promise is kept until the key is back in the queue, or found absent. */
  lemma PromiseKept(cfg: Config, s: State, a: Action, k: string)
    requires Exclusive(s) && Enabled(cfg, s, a) && Promised(s, k)
    ensures Covered(Apply(cfg, s, a), k) || (a.ReadCache? && (k !in s.cache || s.cache[k].BadItem?))
  {
    var t := Apply(cfg, s, a);
    var w: nat :| w < |s.workers| && Promises(s.workers[w].pc, k);
    if Promises(t.workers[w].pc, k) {
      assert Promised(t, k);
    } else {
      AddAfterValid(s.queue, k, cfg.interval);
    }
  }

  lemma NothingLostStep(cfg: Config, s: State, a: Action)
    requires Exclusive(s) && NothingLost(s) && PollerSane(s) && OwnKeys(s) && Enabled(cfg, s, a)
    ensures NothingLost(Apply(cfg, s, a))
  {
    forall k | k in Apply(cfg, s, a).cache ensures Covered(Apply(cfg, s, a), k) {
      if k in s.cache { StaysCovered(cfg, s, a, k); } else { AppearsCovered(cfg, s, a, k); }
    }
  }

  /** What GoodRecords says about keys: cached values are records, and write-backs go to the key held. */
  ghost predicate OwnKeys(s: State)
  {
    && (forall k :: k in s.cache ==> s.cache[k].RecordItem?)
    && (forall w :: 0 <= w < |s.workers| && s.workers[w].pc.Collected? ==> s.workers[w].pc.record.info.subAccountID == s.workers[w].pc.key)
  }

  lemma StaysCovered(cfg: Config, s: State, a: Action, k: string)
    requires Exclusive(s) && OwnKeys(s) && Enabled(cfg, s, a)
    requires k in s.cache && Covered(s, k)
    ensures Covered(Apply(cfg, s, a), k)
  {
    if k in s.queue.dirty || k in s.queue.delayed {
      QueueKeeps(cfg, s, a, k);
    } else if Promised(s, k) {
      PromiseKept(cfg, s, a, k);
    } else {
      Q.AddValid(s.queue, k);
    }
  }

  /** A key enters the cache by a poll about to queue it, or by a write-back that owes a re-schedule. */
  lemma AppearsCovered(cfg: Config, s: State, a: Action, k: string)
    requires PollerSane(s) && OwnKeys(s) && Enabled(cfg, s, a)
    requires k !in s.cache && k in Apply(cfg, s, a).cache
    ensures Covered(Apply(cfg, s, a), k)
  {
    var t := Apply(cfg, s, a);
    if a.WriteBack? {
      assert Promises(t.workers[a.w].pc, k);
    } else {
      assert a.DecideOn?;
      assert t.poller.Added?;
    }
  }

  // The poller.

  lemma PollerStep(cfg: Config, s: State, a: Action)
    requires PollerSane(s) && Enabled(cfg, s, a)
    ensures PollerSane(Apply(cfg, s, a))
  {
  }

  lemma VerdictsStep(cfg: Config, s: State, a: Action)
    requires PollerSane(s) && GoodVerdicts(cfg, s) && Enabled(cfg, s, a)
    ensures GoodVerdicts(cfg, Apply(cfg, s, a))
  {
  }

  // Records.

  lemma GoodRecordGrows(cfg: Config, s: State, t: State, k: string, r: Record)
    requires GoodRecord(cfg, s, k, r) && s.polls.verdicts <= t.polls.verdicts && s.passes <= t.passes
    ensures GoodRecord(cfg, t, k, r)
  {
    var rt :| Decided(rt, true) in s.polls.verdicts && InfoOf(rt) == r.info;
    assert Decided(rt, true) in t.polls.verdicts;
    if r.scanMap != map[] {
      var pass :| 0 <= pass < s.passes && SnapshotOf(cfg, r.info, r.scanMap, pass);
      assert pass < t.passes;
    }
  }

  /** A pass without error turns a good record into a good record, with a snapshot of that pass. */
  lemma CollectedIsGood(cfg: Config, s: State, a: Action)
    requires GoodRecords(cfg, s) && a.Collect? && Enabled(cfg, s, a)
    requires Apply(cfg, s, a).workers[a.w].pc.Collected?
    ensures var t := Apply(cfg, s, a); GoodRecord(cfg, t, t.workers[a.w].pc.key, t.workers[a.w].pc.record)
  {
    var t, r := Apply(cfg, s, a), s.workers[a.w].pc.record;
    GoodRecordGrows(cfg, s, t, s.workers[a.w].pc.key, r);
    C.SuccessIsSnapshot(cfg.scanners, cfg.edp, a.outcomes, a.sendOk, r.scanMap);
    assert SnapshotOf(cfg, r.info, t.workers[a.w].pc.record.scanMap, s.passes);
  }

  lemma NewRecordIsGood(cfg: Config, s: State, rt: Runtime)
    requires Decided(rt, true) in s.polls.verdicts && Considered(cfg.filtered, rt)
    ensures GoodRecord(cfg, s, rt.subAccountID, NewRecord(rt))
  {
  }

  lemma HistoryGrows(cfg: Config, s: State, a: Action)
    requires Enabled(cfg, s, a)
    ensures s.polls.verdicts <= Apply(cfg, s, a).polls.verdicts && s.passes <= Apply(cfg, s, a).passes
  {
  }

  /** A cached item changes by a write-back or by a poll that found the runtime trackable. */
  lemma CacheChange(cfg: Config, s: State, a: Action, k: string)
    requires Enabled(cfg, s, a) && k in Apply(cfg, s, a).cache
    requires k !in s.cache || Apply(cfg, s, a).cache[k] != s.cache[k]
    ensures var item := Apply(cfg, s, a).cache[k];
            || (a.WriteBack? && item == RecordItem(s.workers[a.w].pc.record) && k == item.record.info.subAccountID)
            || (a.DecideOn? && a.trackable && !SkipRuntime(cfg.filtered, s.poller.rt)
                && item == RecordItem(NewRecord(s.poller.rt)) && k == s.poller.rt.subAccountID)
  {
    match a {
      case DecideOn(b) =>
      case WriteBack(w) =>
      case _ =>
    }
  }

  lemma CachedRecordStep(cfg: Config, s: State, a: Action, k: string)
    requires GoodRecords(cfg, s) && PollerSane(s) && Enabled(cfg, s, a) && k in Apply(cfg, s, a).cache
    ensures var t := Apply(cfg, s, a); t.cache[k].RecordItem? && GoodRecord(cfg, t, k, t.cache[k].record)
  {
    var t := Apply(cfg, s, a);
    HistoryGrows(cfg, s, a);
    if k in s.cache && t.cache[k] == s.cache[k] {
      GoodRecordGrows(cfg, s, t, k, s.cache[k].record);
    } else {
      CacheChange(cfg, s, a, k);
      if a.WriteBack? {
        GoodRecordGrows(cfg, s, t, k, s.workers[a.w].pc.record);
      } else {
        assert Decided(s.poller.rt, true) in t.polls.verdicts;
        NewRecordIsGood(cfg, t, s.poller.rt);
      }
    }
  }

  /** A record comes into a worker's hands from the cache or from its own pass. */
  lemma HeldChange(cfg: Config, s: State, a: Action, w: nat)
    requires Enabled(cfg, s, a) && w < |s.workers| && Apply(cfg, s, a).workers[w] != s.workers[w]
    requires Apply(cfg, s, a).workers[w].pc.Holding? || Apply(cfg, s, a).workers[w].pc.Collected?
    ensures var pc := Apply(cfg, s, a).workers[w].pc;
            || (a.Collect? && a.w == w && pc.Collected?)
            || (a.ReadCache? && pc.key in s.cache && s.cache[pc.key] == RecordItem(pc.record))
  {
    match a {
      case Collect(_, _, _) =>
      case ReadCache(_) =>
      case _ =>
    }
  }

  lemma HeldRecordStep(cfg: Config, s: State, a: Action, w: nat)
    requires GoodRecords(cfg, s) && Enabled(cfg, s, a) && w < |s.workers|
    requires Apply(cfg, s, a).workers[w].pc.Holding? || Apply(cfg, s, a).workers[w].pc.Collected?
    ensures var t := Apply(cfg, s, a); GoodRecord(cfg, t, t.workers[w].pc.key, t.workers[w].pc.record)
  {
    var t := Apply(cfg, s, a);
    HistoryGrows(cfg, s, a);
    if t.workers[w] == s.workers[w] {
      GoodRecordGrows(cfg, s, t, s.workers[w].pc.key, s.workers[w].pc.record);
    } else {
      HeldChange(cfg, s, a, w);
      if a.Collect? {
        CollectedIsGood(cfg, s, a);
      } else {
        GoodRecordGrows(cfg, s, t, t.workers[w].pc.key, t.workers[w].pc.record);
      }
    }
  }

  lemma RecordsStep(cfg: Config, s: State, a: Action)
    requires GoodRecords(cfg, s) && PollerSane(s) && Enabled(cfg, s, a)
    ensures GoodRecords(cfg, Apply(cfg, s, a))
  {
    var t := Apply(cfg, s, a);
    assert |t.workers| == |s.workers|;
    forall k | k in t.cache ensures t.cache[k].RecordItem? && GoodRecord(cfg, t, k, t.cache[k].record) {
      CachedRecordStep(cfg, s, a, k);
    }
    forall w | 0 <= w < |t.workers| && (t.workers[w].pc.Holding? || t.workers[w].pc.Collected?)
      ensures GoodRecord(cfg, t, t.workers[w].pc.key, t.workers[w].pc.record)
    {
      HeldRecordStep(cfg, s, a, w);
    }
  }

  // Holds and bills.

  lemma HoldsStep(cfg: Config, s: State, a: Action)
    requires GoodHolds(s) && Enabled(cfg, s, a)
    ensures GoodHolds(Apply(cfg, s, a))
  {
    var t := Apply(cfg, s, a);
    forall w | 0 <= w < |t.workers| ensures GoodHold(t.workers[w]) {
      assert GoodHold(s.workers[w]);
    }
  }

  /** The bill a Collect step appends. */
  function NewBill(cfg: Config, s: State, a: Action): Bill
    requires a.Collect? && a.w < |s.workers| && s.workers[a.w].pc.Holding? && |a.outcomes| == |cfg.scanners|
  {
    var r := s.workers[a.w].pc.record;
    var o := C.Collect(cfg.scanners, cfg.edp, a.outcomes, a.sendOk, r.scanMap);
    Bill(r.info, s.passes, o.scans, r.scanMap, a.sendOk, o.ok)
  }

  lemma BillsChange(cfg: Config, s: State, a: Action)
    requires Enabled(cfg, s, a) && Apply(cfg, s, a).bills != s.bills
    ensures a.Collect? && NewBill(cfg, s, a).scans != map[] && Apply(cfg, s, a).bills == s.bills + [NewBill(cfg, s, a)]
    ensures Apply(cfg, s, a).cache == s.cache && Apply(cfg, s, a).passes == s.passes + 1
  {
  }

  lemma NewBillIsGood(cfg: Config, s: State, a: Action)
    requires GoodRecords(cfg, s) && a.Collect? && Enabled(cfg, s, a) && NewBill(cfg, s, a).scans != map[]
    ensures GoodBill(cfg, NewBill(cfg, s, a))
  {
    var b, r := NewBill(cfg, s, a), s.workers[a.w].pc.record;
    assert GoodRecord(cfg, s, s.workers[a.w].pc.key, r);
    forall id | id in b.scans
      ensures b.scans[id].info == b.info && (b.scans[id].pass == b.pass || (id in b.base && b.scans[id] == b.base[id]))
    {
      C.UsedOrigin(cfg.scanners, cfg.edp, a.outcomes, a.sendOk, r.scanMap, id);
    }
    if r.scanMap != map[] { C.FallbackComplete(cfg.scanners, cfg.edp, a.outcomes, a.sendOk, r.scanMap); }
  }

  lemma FromPollGrows(cfg: Config, s: State, a: Action, info: Info)
    requires Enabled(cfg, s, a) && FromPoll(s.polls.verdicts, info)
    ensures FromPoll(Apply(cfg, s, a).polls.verdicts, info)
  {
    HistoryGrows(cfg, s, a);
    var rt :| Decided(rt, true) in s.polls.verdicts && InfoOf(rt) == info;
    assert Decided(rt, true) in Apply(cfg, s, a).polls.verdicts;
  }

  lemma BillStep(cfg: Config, s: State, a: Action, i: nat)
    requires GoodBills(cfg, s) && GoodRecords(cfg, s) && Enabled(cfg, s, a) && i < |Apply(cfg, s, a).bills|
    ensures GoodBill(cfg, Apply(cfg, s, a).bills[i]) && FromPoll(Apply(cfg, s, a).polls.verdicts, Apply(cfg, s, a).bills[i].info)
  {
    var t := Apply(cfg, s, a);
    if t.bills != s.bills { BillsChange(cfg, s, a); }
    if i < |s.bills| {
      FromPollGrows(cfg, s, a, s.bills[i].info);
    } else {
      NewBillIsGood(cfg, s, a);
      assert GoodRecord(cfg, s, s.workers[a.w].pc.key, s.workers[a.w].pc.record);
      FromPollGrows(cfg, s, a, s.workers[a.w].pc.record.info);
    }
  }

  lemma BillsStep(cfg: Config, s: State, a: Action)
    requires GoodBills(cfg, s) && GoodRecords(cfg, s) && Enabled(cfg, s, a)
    ensures GoodBills(cfg, Apply(cfg, s, a))
  {
    var t := Apply(cfg, s, a);
    forall i | 0 <= i < |t.bills| ensures GoodBill(cfg, t.bills[i]) && FromPoll(t.polls.verdicts, t.bills[i].info) {
      BillStep(cfg, s, a, i);
    }
  }

  // All together.

  lemma NoCrashStep(cfg: Config, s: State, a: Action)
    requires Enabled(cfg, s, a) && forall k :: k in s.cache ==> s.cache[k].RecordItem?
    ensures !Apply(cfg, s, a).crashed
  {
  }

  lemma InvStep(cfg: Config, s: State, a: Action)
    requires Inv(cfg, s) && Enabled(cfg, s, a)
    ensures Inv(cfg, Apply(cfg, s, a))
  {
    ExclusiveStep(cfg, s, a);
    NothingLostStep(cfg, s, a);
    PollerStep(cfg, s, a);
    VerdictsStep(cfg, s, a);
    RecordsStep(cfg, s, a);
    HoldsStep(cfg, s, a);
    BillsStep(cfg, s, a);
    NoCrashStep(cfg, s, a);
  }

  lemma InvInit(cfg: Config, n: nat)
    ensures Inv(cfg, Init(n))
  {
  }

  lemma {:induction false} InvRun(cfg: Config, s: State, run: seq<Action>)
    requires Inv(cfg, s) && Legal(cfg, s, run)
    ensures Inv(cfg, Run(cfg, s, run))
    decreases |run|
  {
    if run != [] {
      InvStep(cfg, s, run[0]);
      InvRun(cfg, Apply(cfg, s, run[0]), run[1..]);
    }
  }

  /** Reachable from the start with some number of workers. */
  ghost predicate Reachable(cfg: Config, s: State)
  {
    exists n: nat, run :: Leads(cfg, Init(n), run, s)
  }

  lemma ReachableInv(cfg: Config, s: State)
    requires Reachable(cfg, s)
    ensures Inv(cfg, s)
  {
    var n: nat, run :| Leads(cfg, Init(n), run, s);
    InvInit(cfg, n);
    InvRun(cfg, Init(n), run);
  }

  lemma ReachableOn(cfg: Config, s: State, run: seq<Action>, t: State)
    requires Reachable(cfg, s) && Leads(cfg, s, run, t)
    ensures Reachable(cfg, t)
  {
    var n: nat, past :| Leads(cfg, Init(n), past, s);
    LeadsOn(cfg, Init(n), past, s, run, t);
    assert Leads(cfg, Init(n), past + run, t);
  }
}
