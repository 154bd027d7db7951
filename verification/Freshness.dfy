/** Which scans a bill falls back on: those of the latest pass without error, never anything older. */
module Freshness {
  import opened Domain
  import opened Process
  import opened Protocol
  import opened Safety
  import C = Collector

  predicate NotOlder(scans: ScanMap, than: ScanMap)
  {
    forall i, j :: i in scans && j in than ==> than[j].pass <= scans[i].pass
  }

  predicate HasRecord(pc: PC)
  {
    pc.Holding? || pc.Collected?
  }

  /** A worker has a record of k that it is about to write back. */
  ghost predicate WritingBack(s: State, k: string)
  {
    exists w: nat :: w < |s.workers| && s.workers[w].pc.Collected? && s.workers[w].pc.key == k
  }

  /** The cached scans of k are not older than the given ones, unless they are about to be replaced. */
  ghost predicate CacheNotOlder(s: State, k: string, than: ScanMap)
  {
    k in s.cache && s.cache[k].RecordItem? && !WritingBack(s, k) ==> NotOlder(s.cache[k].record.scanMap, than)
  }

  ghost predicate HeldNotOlder(s: State, k: string, than: ScanMap)
  {
    forall w :: 0 <= w < |s.workers| && HasRecord(s.workers[w].pc) && s.workers[w].pc.key == k ==>
      NotOlder(s.workers[w].pc.record.scanMap, than)
  }

  /** While a worker holds a record, the cached scans of its key are those it read, or have been reset. */
  ghost predicate ReadStillCached(s: State, w: nat)
  {
    w < |s.workers| && s.workers[w].pc.Holding? ==>
      var k := s.workers[w].pc.key;
      k in s.cache && s.cache[k].RecordItem? ==>
        s.cache[k].record.scanMap == map[] || s.cache[k].record.scanMap == s.workers[w].pc.record.scanMap
  }

  /** What a record holds after a pass: the new scans if the pass ended without error, otherwise the old ones. */
  function Lasting(b: Bill): ScanMap
  {
    if b.ok then b.scans else b.base
  }

  ghost predicate Monotone(s: State)
  {
    && (forall w: nat :: ReadStillCached(s, w))
    && (forall i :: 0 <= i < |s.bills| ==> BehindState(s, s.bills[i]))
    && (forall i, j :: 0 <= i < j < |s.bills| ==> InOrder(s.bills[i], s.bills[j]))
  }

  /** Base scans predate the pass, and a pass without error bills only its own scans, and is accepted. */
  predicate Dated(b: Bill)
  {
    && (forall id :: id in b.base ==> b.base[id].pass < b.pass)
    && (b.ok ==> b.accepted && forall id :: id in b.scans ==> b.scans[id].pass == b.pass)
  }

  /** The bill is in the past of the state: what it left behind is no newer than what is there now. */
  ghost predicate BehindState(s: State, b: Bill)
  {
    && b.pass < s.passes && Dated(b)
    && CacheNotOlder(s, b.info.subAccountID, Lasting(b))
    && HeldNotOlder(s, b.info.subAccountID, Lasting(b))
  }

  ghost predicate InOrder(a: Bill, b: Bill)
  {
    a.pass < b.pass && (a.info.subAccountID == b.info.subAccountID ==> NotOlder(b.base, Lasting(a)))
  }

  lemma ReadStillCachedStep(cfg: Config, s: State, a: Action, w: nat)
    requires Exclusive(s) && OwnKeys(s) && ReadStillCached(s, w) && Enabled(cfg, s, a)
    ensures ReadStillCached(Apply(cfg, s, a), w)
  {
    var t := Apply(cfg, s, a);
    if w < |t.workers| && t.workers[w].pc.Holding? && t.workers[w].pc.key in t.cache {
      var k := t.workers[w].pc.key;
      if k !in s.cache || t.cache[k] != s.cache[k] {
        CacheChange(cfg, s, a, k);
        if a.WriteBack? {
          assert Holds(s, a.w, k) && Holds(s, w, k);
          assert false;
        }
      }
    }
  }

  /** A record about to be written back stays so until it is. */
  lemma WritingBackStep(cfg: Config, s: State, a: Action, k: string)
    requires Enabled(cfg, s, a) && WritingBack(s, k)
    ensures WritingBack(Apply(cfg, s, a), k) || (a.WriteBack? && s.workers[a.w].pc.key == k)
  {
    var w: nat :| w < |s.workers| && s.workers[w].pc.Collected? && s.workers[w].pc.key == k;
    assert a == WriteBack(w) || Apply(cfg, s, a).workers[w].pc == s.workers[w].pc;
  }

  /** Cached scans are replaced by nothing, or by scans a worker holds. */
  lemma CacheNotOlderStep(cfg: Config, s: State, a: Action, k: string, than: ScanMap)
    requires OwnKeys(s) && Enabled(cfg, s, a)
    requires CacheNotOlder(s, k, than) && HeldNotOlder(s, k, than)
    ensures CacheNotOlder(Apply(cfg, s, a), k, than)
  {
    var t := Apply(cfg, s, a);
    if k in t.cache {
      if a.WriteBack? && s.workers[a.w].pc.key == k {
        assert HasRecord(s.workers[a.w].pc);
      } else if k !in s.cache || t.cache[k] != s.cache[k] {
        CacheChange(cfg, s, a, k);
      } else if WritingBack(s, k) {
        WritingBackStep(cfg, s, a, k);
      }
    }
  }

  /** A key that a worker is about to read or to scrape is not about to be written back. */
  lemma AloneWithKey(s: State, w: nat)
    requires Exclusive(s) && w < |s.workers| && (s.workers[w].pc.Got? || s.workers[w].pc.Holding?)
    ensures !WritingBack(s, s.workers[w].pc.key)
  {
    var k := s.workers[w].pc.key;
    if v: nat :| v < |s.workers| && s.workers[v].pc.Collected? && s.workers[v].pc.key == k {
      assert Holds(s, w, k) && Holds(s, v, k);
      assert false;
    }
  }

  /** A record in a worker's hands is what it was, what the cache holds, or what its own pass just scanned. */
  lemma HeldNotOlderStep(cfg: Config, s: State, a: Action, k: string, than: ScanMap)
    requires Exclusive(s) && Enabled(cfg, s, a) && (forall id :: id in than ==> than[id].pass < s.passes)
    requires CacheNotOlder(s, k, than) && HeldNotOlder(s, k, than)
    ensures HeldNotOlder(Apply(cfg, s, a), k, than)
  {
    var t := Apply(cfg, s, a);
    forall w | 0 <= w < |t.workers| && HasRecord(t.workers[w].pc) && t.workers[w].pc.key == k
      ensures NotOlder(t.workers[w].pc.record.scanMap, than)
    {
      if t.workers[w] != s.workers[w] {
        HeldChange(cfg, s, a, w);
        if a.Collect? {
          C.SuccessIsSnapshot(cfg.scanners, cfg.edp, a.outcomes, a.sendOk, s.workers[w].pc.record.scanMap);
        } else {
          AloneWithKey(s, a.w);
        }
      }
    }
  }

  lemma BehindStateStep(cfg: Config, s: State, a: Action, b: Bill)
    requires Exclusive(s) && OwnKeys(s) && Enabled(cfg, s, a) && BehindState(s, b)
    ensures BehindState(Apply(cfg, s, a), b)
  {
    HistoryGrows(cfg, s, a);
    CacheNotOlderStep(cfg, s, a, b.info.subAccountID, Lasting(b));
    HeldNotOlderStep(cfg, s, a, b.info.subAccountID, Lasting(b));
  }

  // A new bill.

  predicate OnePass(scans: ScanMap)
  {
    forall i, j :: i in scans && j in scans ==> scans[i].pass == scans[j].pass
  }

  /** What the worker's record must be like for its next bill to be in order. */
  ghost predicate ReadyToBill(s: State, w: nat)
    requires w < |s.workers| && s.workers[w].pc.Holding?
  {
    var r := s.workers[w].pc.record;
    && r.info.subAccountID == s.workers[w].pc.key && OnePass(r.scanMap)
    && forall id :: id in r.scanMap ==> r.scanMap[id].pass < s.passes
  }

  lemma NewBillDated(cfg: Config, s: State, a: Action)
    requires a.Collect? && Enabled(cfg, s, a) && ReadyToBill(s, a.w)
    ensures Dated(NewBill(cfg, s, a)) && OnePass(Lasting(NewBill(cfg, s, a)))
  {
    var b := NewBill(cfg, s, a);
    if b.ok { C.SuccessIsSnapshot(cfg.scanners, cfg.edp, a.outcomes, a.sendOk, b.base); }
  }

  lemma NewBillBehindState(cfg: Config, s: State, a: Action)
    requires Exclusive(s) && a.Collect? && Enabled(cfg, s, a) && ReadStillCached(s, a.w) && ReadyToBill(s, a.w)
    ensures BehindState(Apply(cfg, s, a), NewBill(cfg, s, a))
  {
    var t, b, k := Apply(cfg, s, a), NewBill(cfg, s, a), s.workers[a.w].pc.key;
    NewBillDated(cfg, s, a);
    if b.ok { assert t.workers[a.w].pc.Collected? && t.workers[a.w].pc.key == k; }
    forall w | 0 <= w < |t.workers| && HasRecord(t.workers[w].pc) && t.workers[w].pc.key == k
      ensures NotOlder(t.workers[w].pc.record.scanMap, Lasting(b))
    {
      if w != a.w {
        assert Holds(s, w, k) && Holds(s, a.w, k);
        assert false;
      }
    }
  }

  lemma GoodScansOnePass(cfg: Config, s: State, w: nat)
    requires GoodRecords(cfg, s) && w < |s.workers| && s.workers[w].pc.Holding?
    ensures ReadyToBill(s, w)
  {
    var r := s.workers[w].pc.record;
    assert GoodRecord(cfg, s, s.workers[w].pc.key, r);
    if r.scanMap != map[] { var pass :| 0 <= pass < s.passes && SnapshotOf(cfg, r.info, r.scanMap, pass); }
  }

  lemma NewBillInOrder(cfg: Config, s: State, a: Action, b: Bill)
    requires a.Collect? && Enabled(cfg, s, a) && BehindState(s, b)
    requires s.workers[a.w].pc.record.info.subAccountID == s.workers[a.w].pc.key
    ensures InOrder(b, NewBill(cfg, s, a))
  {
    assert HasRecord(s.workers[a.w].pc);
  }

  lemma BillsGrow(cfg: Config, s: State, a: Action)
    requires a.Collect? && Enabled(cfg, s, a) && Apply(cfg, s, a).bills == s.bills + [NewBill(cfg, s, a)]
    requires s.workers[a.w].pc.record.info.subAccountID == s.workers[a.w].pc.key
    requires forall i :: 0 <= i < |s.bills| ==> BehindState(s, s.bills[i])
    requires forall i, j :: 0 <= i < j < |s.bills| ==> InOrder(s.bills[i], s.bills[j])
    ensures var bills := Apply(cfg, s, a).bills; forall i, j :: 0 <= i < j < |bills| ==> InOrder(bills[i], bills[j])
  {
    var bills, b := s.bills, NewBill(cfg, s, a);
    forall i, j | 0 <= i < j < |bills + [b]| ensures InOrder((bills + [b])[i], (bills + [b])[j]) {
      if j == |bills| { NewBillInOrder(cfg, s, a, bills[i]); }
    }
  }

  lemma MonotoneStep(cfg: Config, s: State, a: Action)
    requires Exclusive(s) && OwnKeys(s) && GoodRecords(cfg, s) && Monotone(s) && Enabled(cfg, s, a)
    ensures Monotone(Apply(cfg, s, a))
  {
    var t := Apply(cfg, s, a);
    forall w: nat ensures ReadStillCached(t, w) { ReadStillCachedStep(cfg, s, a, w); }
    forall i | 0 <= i < |s.bills| ensures BehindState(t, s.bills[i]) { BehindStateStep(cfg, s, a, s.bills[i]); }
    if t.bills != s.bills {
      BillsChange(cfg, s, a);
      GoodScansOnePass(cfg, s, a.w);
      NewBillBehindState(cfg, s, a);
      BillsGrow(cfg, s, a);
    }
  }

  lemma InvOwnKeys(cfg: Config, s: State)
    requires Inv(cfg, s)
    ensures Exclusive(s) && OwnKeys(s) && GoodRecords(cfg, s)
  {
  }

  // What the outcome of a pass means.

  /** A bill belongs to a pass without error exactly when the backend accepted it and it uses a scan of that very
      pass for every scanner. */
  ghost predicate Judged(cfg: Config, b: Bill)
  {
    b.ok <==> b.accepted && forall n :: 0 <= n < |cfg.scanners| ==>
                cfg.scanners[n] in b.scans && b.scans[cfg.scanners[n]].pass == b.pass
  }

  lemma NewBillJudged(cfg: Config, s: State, a: Action)
    requires a.Collect? && Enabled(cfg, s, a) && ReadyToBill(s, a.w) && Distinct(cfg.scanners) && NewBill(cfg, s, a).scans != map[]
    ensures Judged(cfg, NewBill(cfg, s, a))
  {
    var b := NewBill(cfg, s, a);
    C.OkIff(cfg.scanners, cfg.edp, a.outcomes, a.sendOk, b.base);
    C.BilledIff(cfg.scanners, cfg.edp, a.outcomes, a.sendOk, b.base);
    forall n | 0 <= n < |cfg.scanners|
      ensures a.outcomes[n].Some? && cfg.edp(a.outcomes[n].value).Some? <==>
                cfg.scanners[n] in b.scans && b.scans[cfg.scanners[n]].pass == b.pass
    {
      C.FallbackRule(cfg.scanners, cfg.edp, a.outcomes, a.sendOk, b.base, n);
    }
  }

  ghost predicate AllJudged(cfg: Config, s: State)
  {
    Distinct(cfg.scanners) ==> forall i :: 0 <= i < |s.bills| ==> Judged(cfg, s.bills[i])
  }

  lemma JudgedStep(cfg: Config, s: State, a: Action)
    requires GoodRecords(cfg, s) && AllJudged(cfg, s) && Enabled(cfg, s, a)
    ensures AllJudged(cfg, Apply(cfg, s, a))
  {
    var t := Apply(cfg, s, a);
    if Distinct(cfg.scanners) && t.bills != s.bills {
      BillsChange(cfg, s, a);
      GoodScansOnePass(cfg, s, a.w);
      NewBillJudged(cfg, s, a);
    }
  }

  // Where stored scans come from.

  /** One of the bills was billed without error from exactly these scans, for this identity. */
  ghost predicate BilledFrom(bills: seq<Bill>, info: Info, scans: ScanMap)
  {
    exists m :: 0 <= m < |bills| && bills[m].ok && bills[m].accepted && bills[m].info == info && bills[m].scans == scans
  }

  ghost predicate StoredFrom(bills: seq<Bill>, r: Record)
  {
    r.scanMap == map[] || BilledFrom(bills, r.info, r.scanMap)
  }

  ghost predicate Provenance(s: State)
  {
    && (forall k :: k in s.cache && s.cache[k].RecordItem? ==> StoredFrom(s.bills, s.cache[k].record))
    && (forall w :: 0 <= w < |s.workers| && HasRecord(s.workers[w].pc) ==> StoredFrom(s.bills, s.workers[w].pc.record))
    && (forall j :: 0 <= j < |s.bills| ==> StoredFrom(s.bills[..j], Record(s.bills[j].info, s.bills[j].base)))
  }

  lemma BillsKept(cfg: Config, s: State, a: Action, r: Record)
    requires Enabled(cfg, s, a) && StoredFrom(s.bills, r)
    ensures s.bills <= Apply(cfg, s, a).bills && StoredFrom(Apply(cfg, s, a).bills, r)
  {
    var t := Apply(cfg, s, a);
    if t.bills != s.bills { BillsChange(cfg, s, a); }
    if r.scanMap != map[] {
      var m :| 0 <= m < |s.bills| && s.bills[m].ok && s.bills[m].accepted && s.bills[m].info == r.info && s.bills[m].scans == r.scanMap;
      assert t.bills[m] == s.bills[m];
    }
  }

  lemma CachedProvenance(cfg: Config, s: State, a: Action, k: string)
    requires Provenance(s) && Enabled(cfg, s, a) && k in Apply(cfg, s, a).cache && Apply(cfg, s, a).cache[k].RecordItem?
    ensures StoredFrom(Apply(cfg, s, a).bills, Apply(cfg, s, a).cache[k].record)
  {
    var t := Apply(cfg, s, a);
    if k in s.cache && t.cache[k] == s.cache[k] {
      BillsKept(cfg, s, a, s.cache[k].record);
    } else {
      CacheChange(cfg, s, a, k);
      if a.WriteBack? {
        assert HasRecord(s.workers[a.w].pc);
        BillsKept(cfg, s, a, s.workers[a.w].pc.record);
      }
    }
  }

  /** A pass without error bills what it leaves in the worker's hands. */
  lemma CollectedWasBilled(cfg: Config, s: State, a: Action)
    requires a.Collect? && Enabled(cfg, s, a) && Apply(cfg, s, a).workers[a.w].pc.Collected?
    ensures var t := Apply(cfg, s, a); BilledFrom(t.bills, t.workers[a.w].pc.record.info, t.workers[a.w].pc.record.scanMap)
  {
    var t := Apply(cfg, s, a);
    assert t.bills == s.bills + [NewBill(cfg, s, a)];
    assert t.bills[|s.bills|].ok;
  }

  lemma HeldProvenance(cfg: Config, s: State, a: Action, w: nat)
    requires Provenance(s) && Enabled(cfg, s, a) && w < |s.workers| && HasRecord(Apply(cfg, s, a).workers[w].pc)
    ensures StoredFrom(Apply(cfg, s, a).bills, Apply(cfg, s, a).workers[w].pc.record)
  {
    var t := Apply(cfg, s, a);
    if t.workers[w] == s.workers[w] {
      BillsKept(cfg, s, a, s.workers[w].pc.record);
    } else {
      HeldChange(cfg, s, a, w);
      if a.Collect? {
        CollectedWasBilled(cfg, s, a);
      } else {
        BillsKept(cfg, s, a, t.workers[w].pc.record);
      }
    }
  }

  lemma BaseProvenance(cfg: Config, s: State, a: Action, j: nat)
    requires Provenance(s) && Enabled(cfg, s, a) && j < |Apply(cfg, s, a).bills|
    ensures var bills := Apply(cfg, s, a).bills; StoredFrom(bills[..j], Record(bills[j].info, bills[j].base))
  {
    var t := Apply(cfg, s, a);
    if t.bills != s.bills {
      BillsChange(cfg, s, a);
      assert j < |s.bills| ==> t.bills[..j] == s.bills[..j] && t.bills[j] == s.bills[j];
      assert j == |s.bills| ==> t.bills[..j] == s.bills && HasRecord(s.workers[a.w].pc);
    }
  }

  lemma ProvenanceStep(cfg: Config, s: State, a: Action)
    requires Provenance(s) && Enabled(cfg, s, a)
    ensures Provenance(Apply(cfg, s, a))
  {
    var t := Apply(cfg, s, a);
    forall k | k in t.cache && t.cache[k].RecordItem? ensures StoredFrom(t.bills, t.cache[k].record) { CachedProvenance(cfg, s, a, k); }
    assert |t.workers| == |s.workers|;
    forall w | 0 <= w < |t.workers| && HasRecord(t.workers[w].pc) ensures StoredFrom(t.bills, t.workers[w].pc.record) {
      HeldProvenance(cfg, s, a, w);
    }
    forall j | 0 <= j < |t.bills| ensures StoredFrom(t.bills[..j], Record(t.bills[j].info, t.bills[j].base)) {
      BaseProvenance(cfg, s, a, j);
    }
  }

  // Over every run.

  lemma {:induction false} MonotoneRun(cfg: Config, s: State, run: seq<Action>)
    requires Inv(cfg, s) && Monotone(s) && Provenance(s) && AllJudged(cfg, s) && Legal(cfg, s, run)
    ensures Monotone(Run(cfg, s, run)) && Provenance(Run(cfg, s, run)) && AllJudged(cfg, Run(cfg, s, run))
    decreases |run|
  {
    if run != [] {
      InvOwnKeys(cfg, s);
      MonotoneStep(cfg, s, run[0]);
      ProvenanceStep(cfg, s, run[0]);
      JudgedStep(cfg, s, run[0]);
      InvStep(cfg, s, run[0]);
      MonotoneRun(cfg, Apply(cfg, s, run[0]), run[1..]);
    }
  }

  lemma ReachableMonotone(cfg: Config, s: State)
    requires Reachable(cfg, s)
    ensures Monotone(s) && Provenance(s) && AllJudged(cfg, s) && GoodBills(cfg, s)
  {
    var n: nat, run :| Leads(cfg, Init(n), run, s);
    InvInit(cfg, n);
    MonotoneRun(cfg, Init(n), run);
    ReachableInv(cfg, s);
  }

  /** Scans kept in the cache are exactly the scans of an earlier bill of the same cluster that the backend accepted,
      from a pass without error. */
  lemma CachedScansWereBilled(cfg: Config, s: State, k: string)
    requires Reachable(cfg, s) && k in s.cache && s.cache[k].RecordItem? && s.cache[k].record.scanMap != map[]
    ensures exists m :: && 0 <= m < |s.bills| && s.bills[m].ok && s.bills[m].accepted
                        && s.bills[m].info == s.cache[k].record.info && s.bills[m].scans == s.cache[k].record.scanMap
  {
    ReachableMonotone(cfg, s);
  }

  /** With distinct scanner IDs, over every run: a pass ended without error exactly when its bill was accepted and
      every scanner brought a new scan that converts. */
  lemma SuccessIff(cfg: Config, s: State, i: nat)
    requires Reachable(cfg, s) && i < |s.bills| && Distinct(cfg.scanners)
    ensures var b := s.bills[i];
            b.ok <==> b.accepted && forall n :: 0 <= n < |cfg.scanners| ==>
                        cfg.scanners[n] in b.scans && b.scans[cfg.scanners[n]].pass == b.pass
  {
    ReachableMonotone(cfg, s);
    var b := s.bills[i];
    assert Judged(cfg, b);
  }

  /** Bills are ordered by pass, and the fallback behind a later bill of a sub-account is never older than the
      fallback behind an earlier one. */
  lemma FallbackNeverGoesBack(cfg: Config, s: State, i: nat, j: nat, x: ScannerID, y: ScannerID)
    requires Reachable(cfg, s) && i < j < |s.bills|
    requires s.bills[i].info.subAccountID == s.bills[j].info.subAccountID
    requires x in s.bills[i].base && y in s.bills[j].base
    ensures s.bills[i].base[x].pass <= s.bills[j].base[y].pass < s.bills[j].pass
    ensures s.bills[i].pass < s.bills[j].pass
  {
    ReachableMonotone(cfg, s);
    var a, b := s.bills[i], s.bills[j];
    assert InOrder(a, b) && Dated(a) && Dated(b) && GoodBill(cfg, a);
    if a.ok { var z :| z in a.scans; }
  }

  ghost predicate Fresh(b: Bill, id: ScannerID)
  {
    id in b.scans && b.scans[id].pass == b.pass
  }

  /** No pass over the sub-account of bill i ended without error, from bill i up to but excluding bill j. */
  ghost predicate OnlyErrors(bills: seq<Bill>, i: nat, j: nat)
    requires i < j < |bills|
  {
    forall m :: i <= m < j && bills[m].info.subAccountID == bills[i].info.subAccountID ==> !bills[m].ok
  }

  /** After a pass without error, later bills fall back on nothing older than that pass. */
  lemma NoOlderThanSuccess(cfg: Config, s: State, m: nat, j: nat, id: ScannerID)
    requires Monotone(s) && GoodBills(cfg, s) && m < j < |s.bills| && s.bills[m].ok
    requires s.bills[m].info.subAccountID == s.bills[j].info.subAccountID && id in s.bills[j].base
    ensures s.bills[m].pass <= s.bills[j].base[id].pass
  {
    assert InOrder(s.bills[m], s.bills[j]) && BehindState(s, s.bills[m]) && GoodBill(cfg, s.bills[m]);
    var x :| x in s.bills[m].scans;
  }

  lemma FallbackPredates(s: State, i: nat, j: nat, id: ScannerID)
    requires Monotone(s) && Provenance(s) && i < j < |s.bills| && OnlyErrors(s.bills, i, j)
    requires s.bills[i].info.subAccountID == s.bills[j].info.subAccountID && id in s.bills[j].base
    ensures s.bills[j].base[id].pass < s.bills[i].pass
  {
    var b := s.bills[j];
    assert StoredFrom(s.bills[..j], Record(b.info, b.base));
    var m :| 0 <= m < j && s.bills[..j][m].ok && s.bills[..j][m].accepted && s.bills[..j][m].info == b.info && s.bills[..j][m].scans == b.base;
    assert s.bills[m] == s.bills[..j][m] && BehindState(s, s.bills[m]);
    assert InOrder(s.bills[m], s.bills[i]);
  }

  /** A later bill can yet use an older scan of some scanner than an earlier bill did. It does exactly when the
      earlier bill used a fresh scan, the later one fell back, and every pass between the two ended in an error. */
  lemma BilledScanGoesBackIff(cfg: Config, s: State, i: nat, j: nat, id: ScannerID)
    requires Reachable(cfg, s) && i < j < |s.bills|
    requires s.bills[i].info.subAccountID == s.bills[j].info.subAccountID
    requires id in s.bills[i].scans && id in s.bills[j].scans
    ensures s.bills[j].scans[id].pass < s.bills[i].scans[id].pass <==>
              Fresh(s.bills[i], id) && !Fresh(s.bills[j], id) && OnlyErrors(s.bills, i, j)
  {
    ReachableMonotone(cfg, s);
    var a, b := s.bills[i], s.bills[j];
    assert GoodBill(cfg, a) && GoodBill(cfg, b) && BehindState(s, a) && BehindState(s, b) && InOrder(a, b);
    if !Fresh(b, id) {
      if OnlyErrors(s.bills, i, j) {
        FallbackPredates(s, i, j, id);
      } else {
        var m :| i <= m < j && s.bills[m].info.subAccountID == a.info.subAccountID && s.bills[m].ok;
        NoOlderThanSuccess(cfg, s, m, j, id);
        assert m == i || InOrder(a, s.bills[m]);
      }
    }
  }
}
