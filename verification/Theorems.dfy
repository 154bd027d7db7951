/** What holds in every reachable state, for any number of workers and every interleaving. */
module Theorems {
  import opened Domain
  import opened ClusterTracking
  import opened Process
  import opened Protocol
  import opened Safety
  import C = Collector
  import P = Payload
  import V = Volumes

  /** No cached sub-account is ever lost: it is queued, parked, in the hands of a worker that will read the
      cache or re-schedule it, or the one key the poller is about to queue. */
  lemma NoSubAccountLost(cfg: Config, s: State, k: string)
    requires Reachable(cfg, s) && k in s.cache
    ensures || k in s.queue.dirty
            || k in s.queue.delayed
            || (exists w :: 0 <= w < |s.workers| && Promises(s.workers[w].pc, k))
            || (s.poller.Added? && s.poller.rt.subAccountID == k)
  {
    ReachableInv(cfg, s);
  }

  /** In particular, once the workers are idle and the poller is not about to queue, every cached key is scheduled. */
  lemma ScheduledWhenQuiet(cfg: Config, s: State, k: string)
    requires Reachable(cfg, s) && k in s.cache && !s.poller.Added?
    requires forall w :: 0 <= w < |s.workers| ==> s.workers[w].pc.Idle?
    ensures k in s.queue.ready || k in s.queue.delayed
  {
    ReachableInv(cfg, s);
    assert forall w: nat, x :: !Holds(s, w, x);
  }

  /** Between Get and Done a key is in the hands of one worker. */
  lemma OneHolderPerKey(cfg: Config, s: State, v: nat, w: nat)
    requires Reachable(cfg, s) && v < |s.workers| && w < |s.workers|
    requires InHold(s.workers[v].pc) && InHold(s.workers[w].pc) && s.workers[v].pc.key == s.workers[w].pc.key
    ensures v == w && s.workers[w].pc.key in s.queue.processing && s.workers[w].pc.key !in s.queue.ready
  {
    ReachableInv(cfg, s);
    assert Holds(s, v, s.workers[v].pc.key) && Holds(s, w, s.workers[v].pc.key);
  }

  /** A write-back touches nothing but the key its worker holds alone. */
  lemma WriteBackIsOwn(cfg: Config, s: State, w: nat, k: string)
    requires Reachable(cfg, s) && Enabled(cfg, s, WriteBack(w)) && k != s.workers[w].pc.key
    ensures Lookup(Apply(cfg, s, WriteBack(w)).cache, k) == Lookup(s.cache, k)
  {
    ReachableInv(cfg, s);
  }

  /** The identity is that of the runtime, field by field, with the provider in lower case. */
  predicate Identifies(info: Info, rt: Runtime)
  {
    && info.subAccountID == rt.subAccountID && info.runtimeID == rt.runtimeID && info.instanceID == rt.instanceID
    && info.globalAccountID == rt.globalAccountID && info.shootName == rt.shootName
    && |info.providerType| == |rt.provider|
    && forall i :: 0 <= i < |rt.provider| ==>
         info.providerType[i] as int == rt.provider[i] as int + if 'A' <= rt.provider[i] <= 'Z' then 32 else 0
  }

  /** A runtime that a poll listed, acted on and found trackable, as the sort allows. */
  ghost predicate FoundTrackable(cfg: Config, s: State, rt: Runtime)
  {
    && Decided(rt, true) in s.polls.verdicts && rt in s.polls.listed && MayBeTrackable(rt, true)
    && rt.subAccountID != "" && rt.globalAccountID !in cfg.filtered
  }

  lemma FieldsOf(rt: Runtime)
    ensures Identifies(InfoOf(rt), rt)
  {
  }

  lemma PolledIdentity(cfg: Config, s: State, info: Info) returns (rt: Runtime)
    requires GoodVerdicts(cfg, s) && FromPoll(s.polls.verdicts, info)
    ensures FoundTrackable(cfg, s, rt) && Identifies(info, rt)
  {
    rt :| Decided(rt, true) in s.polls.verdicts && InfoOf(rt) == info;
    assert MayDecide(cfg.filtered, rt, true);
    FieldsOf(rt);
  }

  /** Every cached value is a record of its own key, not filtered, with the identity of one runtime that an
      earlier poll listed and found trackable; and the nil record is never dereferenced. */
  lemma RecordIntegrity(cfg: Config, s: State, k: string)
    requires Reachable(cfg, s)
    ensures !s.crashed
    ensures k in s.cache ==>
              && s.cache[k].RecordItem? && k != ""
              && var info := s.cache[k].record.info;
                 && info.subAccountID == k && info.globalAccountID !in cfg.filtered
                 && exists rt :: FoundTrackable(cfg, s, rt) && Identifies(info, rt)
  {
    ReachableInv(cfg, s);
    if k in s.cache {
      var rt := PolledIdentity(cfg, s, s.cache[k].record.info);
    }
  }

  /** Every bill names one runtime that an earlier poll listed and found trackable, and carries its identity. */
  lemma BillIdentity(cfg: Config, s: State, i: nat)
    requires Reachable(cfg, s) && i < |s.bills|
    ensures exists rt :: FoundTrackable(cfg, s, rt) && Identifies(s.bills[i].info, rt)
  {
    ReachableInv(cfg, s);
    var rt := PolledIdentity(cfg, s, s.bills[i].info);
  }

  /** Cached scans are all or nothing: none, or one convertible scan per scanner, all from one pass that ran
      under the record's own identity. */
  lemma CachedScansAreSnapshots(cfg: Config, s: State, k: string)
    requires Reachable(cfg, s) && k in s.cache
    ensures s.cache[k].RecordItem?
    ensures var r := s.cache[k].record;
            r.scanMap == map[] ||
            (r.scanMap.Keys == C.IDs(cfg.scanners)
             && (forall x, y :: x in r.scanMap && y in r.scanMap ==> r.scanMap[x].pass == r.scanMap[y].pass)
             && forall x :: x in r.scanMap ==> r.scanMap[x].info == r.info && cfg.edp(r.scanMap[x]).Some?)
  {
    ReachableInv(cfg, s);
    assert GoodRecord(cfg, s, k, s.cache[k].record);
    if s.cache[k].record.scanMap != map[] {
      SnapshotFacts(cfg, s.passes, s.cache[k].record.info, s.cache[k].record.scanMap);
    }
  }

  lemma SnapshotFacts(cfg: Config, passes: nat, info: Info, scans: ScanMap)
    requires GoodScans(cfg, passes, info, scans) && scans != map[]
    ensures scans.Keys == C.IDs(cfg.scanners)
    ensures forall x, y :: x in scans && y in scans ==> scans[x].pass == scans[y].pass < passes
    ensures forall x :: x in scans ==> scans[x].info == info && cfg.edp(scans[x]).Some?
  {
    var pass :| 0 <= pass < passes && SnapshotOf(cfg, info, scans, pass);
  }

  /** A hold that has ended re-scheduled its key exactly once if the key was cached when read, and not at all otherwise. */
  lemma RescheduledOncePerHold(cfg: Config, s: State, w: nat)
    requires Reachable(cfg, s) && w < |s.workers| && s.workers[w].pc.Idle?
    ensures s.workers[w].hold.readds == if s.workers[w].hold.cached then 1 else 0
  {
    ReachableInv(cfg, s);
  }

  /** With a positive scrape interval a key becomes due only when its timer fires or the poller queues it: being
      re-scheduled by a worker never makes it due at once. */
  lemma DueByTimerOrPoll(cfg: Config, s: State, a: Action, k: string)
    requires cfg.interval > 0 && Enabled(cfg, s, a)
    requires k !in s.queue.dirty && k in Apply(cfg, s, a).queue.dirty
    ensures a == Fire(k) || (a == Enqueue && s.poller.rt.subAccountID == k)
  {
    match a {
      case Fire(_) =>
      case Enqueue =>
      case _ =>
    }
  }

  /** No bill mixes clusters, whatever was renamed or written back late; its scans come from the billing pass
      and at most one earlier pass, and with such an earlier pass every scanner is billed. */
  lemma BillsOwnScansOnly(cfg: Config, s: State, i: nat)
    requires Reachable(cfg, s) && i < |s.bills|
    ensures var b := s.bills[i];
            && b.scans != map[]
            && (forall id :: id in b.scans ==> b.scans[id].info == b.info && cfg.edp(b.scans[id]).Some?)
            && (forall x, y :: x in b.scans && y in b.scans && b.scans[x].pass != b.pass && b.scans[y].pass != b.pass ==>
                  b.scans[x].pass == b.scans[y].pass < b.pass)
            && (b.base != map[] ==> b.scans.Keys == C.IDs(cfg.scanners))
  {
    ReachableInv(cfg, s);
    var b := s.bills[i];
    assert GoodBill(cfg, b);
    if b.base != map[] { SnapshotFacts(cfg, b.pass, b.info, b.base); }
  }

  lemma Datas(used: ScanMap, order: seq<ScannerID>) returns (datas: seq<ScanData>)
    requires forall i :: 0 <= i < |order| ==> order[i] in used
    ensures |datas| == |order| && forall i :: 0 <= i < |order| ==> datas[i] == used[order[i]].data
  {
    datas := seq(|order|, i requires 0 <= i < |order| => used[order[i]].data);
  }

  /** From the clusters to the payload, over every run: whatever order the scans and the machine types of a scan
      are walked in, the volumes billed are at least those provisioned and at most 31 GB per volume more, and a
      record that once completed a pass is billed one measurement per scanner. */
  lemma PayloadOfEveryBill(cfg: Config, cat: P.Catalogue, s: State, i: nat, order: seq<ScannerID>, ms: seq<EDPMeasurement>)
    requires Reachable(cfg, s) && i < |s.bills|
    requires C.Measures(cat, s.bills[i].scans, order, ms)
    requires forall id :: id in s.bills[i].scans ==> P.WithinFloatRange(s.bills[i].scans[id].data)
    ensures V.WithinRounding(P.Aggregate(ms).provisionedVolumes)
    ensures Distinct(cfg.scanners) && s.bills[i].base != map[] ==> |ms| == |cfg.scanners|
  {
    var used := s.bills[i].scans;
    var datas := Datas(used, order);
    P.PayloadWithinRounding(cat, datas, ms);
    if Distinct(cfg.scanners) && s.bills[i].base != map[] {
      BillsOwnScansOnly(cfg, s, i);
      C.DistinctLength(cfg.scanners);
      C.DistinctLength(order);
    }
  }
}
