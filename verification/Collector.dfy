/** One collector pass: scan, convert, fall back to previous scans, send. */
module Collector {
  import opened Domain
  import P = Payload

  /** Conversion of a scan to a measurement; None is a conversion error. */
  type Edp = Scan -> Option<EDPMeasurement>

  function IDs(scanners: seq<ScannerID>): set<ScannerID>
  {
    set id | id in scanners
  }

  // Stage one: what each scanner brings, or its previous scan.

  function Keep(current: ScanMap, id: ScannerID, outcome: Option<Scan>, previous: ScanMap): ScanMap
  {
    if outcome.Some? then current[id := outcome.value]
    else if id in previous then current[id := previous[id]]
    else current
  }

  /** Stage one after the first n scanners. */
  function ScannedTo(scanners: seq<ScannerID>, outcomes: seq<Option<Scan>>, previous: ScanMap, n: nat): ScanMap
    requires n <= |scanners| == |outcomes|
  {
    if n == 0 then map[]
    else Keep(ScannedTo(scanners, outcomes, previous, n - 1), scanners[n - 1], outcomes[n - 1], previous)
  }

  function Scanned(scanners: seq<ScannerID>, outcomes: seq<Option<Scan>>, previous: ScanMap): ScanMap
    requires |scanners| == |outcomes|
  {
    ScannedTo(scanners, outcomes, previous, |scanners|)
  }

  predicate AllScannedTo(outcomes: seq<Option<Scan>>, n: nat)
    requires n <= |outcomes|
    ensures AllScannedTo(outcomes, n) <==> forall i :: 0 <= i < n ==> outcomes[i].Some?
  {
    n == 0 || (AllScannedTo(outcomes, n - 1) && outcomes[n - 1].Some?)
  }

  predicate AllScanned(outcomes: seq<Option<Scan>>)
  {
    forall i :: 0 <= i < |outcomes| ==> outcomes[i].Some?
  }

  // Stage two: each scan if it converts, or its previous scan if that converts.

  predicate Usable(edp: Edp, scans: ScanMap, id: ScannerID)
  {
    id in scans && edp(scans[id]).Some?
  }

  predicate AllConvert(edp: Edp, scans: ScanMap)
  {
    forall id :: id in scans ==> edp(scans[id]).Some?
  }

  function Convertable(edp: Edp, current: ScanMap, previous: ScanMap): (used: ScanMap)
    ensures AllConvert(edp, used)
  {
    map id | id in current && (Usable(edp, current, id) || Usable(edp, previous, id)) ::
      if Usable(edp, current, id) then current[id] else previous[id]
  }

  /** What the conversion loop picks for one scan. */
  function Chosen(edp: Edp, current: ScanMap, previous: ScanMap, id: ScannerID): Option<Scan>
    requires id in current
  {
    if Usable(edp, current, id) then Some(current[id])
    else if Usable(edp, previous, id) then Some(previous[id])
    else None
  }

  lemma ConvertableGrows(edp: Edp, current: ScanMap, previous: ScanMap, todo: set<ScannerID>, id: ScannerID)
    requires id in todo && id in current
    ensures var before, after := Convertable(edp, current - todo, previous), Convertable(edp, current - (todo - {id}), previous);
            var chosen := Chosen(edp, current, previous, id);
            id !in before && after == if chosen.Some? then before[id := chosen.value] else before
    ensures AllConvert(edp, current - (todo - {id})) <==> AllConvert(edp, current - todo) && edp(current[id]).Some?
  {
    var less, more := current - todo, current - (todo - {id});
    assert forall x :: x in more <==> x in less || x == id;
    assert forall x :: x in less ==> more[x] == less[x];
  }

  /** Everything a pass decides, apart from the order of the measurements. */
  datatype Outcome = Outcome(scans: ScanMap, billed: bool, ok: bool)

  function Collect(scanners: seq<ScannerID>, edp: Edp, outcomes: seq<Option<Scan>>, sendOk: bool, previous: ScanMap): Outcome
    requires |scanners| == |outcomes|
  {
    var current := Scanned(scanners, outcomes, previous);
    var used := Convertable(edp, current, previous);
    Outcome(used, used != map[], AllScanned(outcomes) && AllConvert(edp, current) && used != map[] && sendOk)
  }

  // The pass as the code runs it, with its counters.

  datatype Event = Event(id: ScannerID, success: bool)

  /** One measurement per used scan, in some order. */
  ghost predicate MeasuredInOrder(edp: Edp, used: ScanMap, order: seq<ScannerID>, ms: seq<EDPMeasurement>)
  {
    && Distinct(order) && IDs(order) == used.Keys && |order| == |ms| && AllConvert(edp, used)
    && forall i :: 0 <= i < |ms| ==> order[i] in used && ms[i] == edp(used[order[i]]).value
  }

  class Collector {
    const scanners: seq<ScannerID>
    const edp: Edp
    var scans: multiset<Event>
    var conversions: multiset<Event>

    constructor (edp: Edp, scanners: seq<ScannerID>)
      ensures this.scanners == scanners && this.edp == edp
      ensures scans == multiset{} && conversions == multiset{}
    {
      this.scanners, this.edp := scanners, edp;
      scans, conversions := multiset{}, multiset{};
    }

    /** The body of the scan loop for one scanner. */
    method ScanOne(current: ScanMap, id: ScannerID, outcome: Option<Scan>, previous: ScanMap) returns (r: ScanMap)
      modifies this
      ensures r == Keep(current, id, outcome, previous)
      ensures scans == old(scans) + multiset{Event(id, outcome.Some?)}
      ensures conversions == old(conversions) + Missing(id, outcome, previous)
    {
      r := current;
      scans := scans + multiset{Event(id, outcome.Some?)};
      if outcome.Some? { return r[id := outcome.value]; }
      if id in previous { return r[id := previous[id]]; }
      conversions := conversions + multiset{Event(id, false)};
    }

    /** `outcomes` is what the scanners answer, in the order they are asked. */
    method ExecuteScans(outcomes: seq<Option<Scan>>, previous: ScanMap) returns (current: ScanMap, ok: bool)
      requires |scanners| == |outcomes|
      modifies this
      ensures current == Scanned(scanners, outcomes, previous)
      ensures ok <==> AllScanned(outcomes)
      ensures scans == ScansAfter(old(scans), scanners, outcomes, |scanners|)
      ensures conversions == MissesAfter(old(conversions), scanners, outcomes, previous, |scanners|)
    {
      current, ok := map[], true;
      for i := 0 to |scanners|
        invariant current == ScannedTo(scanners, outcomes, previous, i)
        invariant ok == AllScannedTo(outcomes, i)
        invariant scans == ScansAfter(old(scans), scanners, outcomes, i)
        invariant conversions == MissesAfter(old(conversions), scanners, outcomes, previous, i)
      {
        current := ScanOne(current, scanners[i], outcomes[i], previous);
        if outcomes[i].None? { ok := false; }
      }
    }

    /** The body of the conversion loop for one scan. */
    method ConvertOne(id: ScannerID, current: ScanMap, previous: ScanMap) returns (chosen: Option<Scan>, ok: bool)
      requires id in current
      modifies this`conversions
      ensures chosen == Chosen(edp, current, previous, id)
      ensures ok <==> edp(current[id]).Some?
      ensures conversions == old(conversions) + multiset{Event(id, ok)}
    {
      ok := edp(current[id]).Some?;
      conversions := conversions + multiset{Event(id, ok)};
      if ok { return Some(current[id]), ok; }
      if id !in previous { return None, ok; }
      if edp(previous[id]).None? { return None, ok; }
      return Some(previous[id]), ok;
    }

    /** The scans are visited in whatever order the map yields them. */
    method ConvertScansToEDPMeasurements(current: ScanMap, previous: ScanMap)
      returns (used: ScanMap, ms: seq<EDPMeasurement>, ok: bool, ghost order: seq<ScannerID>)
      modifies this`conversions
      ensures used == Convertable(edp, current, previous)
      ensures MeasuredInOrder(edp, used, order, ms)
      ensures ok <==> AllConvert(edp, current)
      ensures forall id, b :: conversions[Event(id, b)]
                == old(conversions)[Event(id, b)] + if id in current && edp(current[id]).Some? == b then 1 else 0
    {
      used, ms, ok, order := map[], [], true, [];
      var todo := current.Keys;
      while todo != {}
        invariant todo <= current.Keys
        invariant used == Convertable(edp, current - todo, previous)
        invariant MeasuredInOrder(edp, used, order, ms)
        invariant ok <==> AllConvert(edp, current - todo)
        invariant forall id, b :: conversions[Event(id, b)] == old(conversions)[Event(id, b)]
                    + if id in current && id !in todo && edp(current[id]).Some? == b then 1 else 0
        decreases todo
      {
        var id :| id in todo;
        var chosen, converted := ConvertOne(id, current, previous);
        ConvertableGrows(edp, current, previous, todo, id);
        todo := todo - {id};
        ok := ok && converted;
        if chosen.Some? {
          MeasuredSnoc(edp, used, order, ms, id, chosen.value);
          used, ms, order := used[id := chosen.value], ms + [edp(chosen.value).value], order + [id];
        }
      }
      assert current - todo == current;
    }

    /** A whole pass. `sendOk` is whether the backend accepts the payload, should one be built. */
    method CollectAndSend(info: Info, timestamp: string, outcomes: seq<Option<Scan>>, sendOk: bool, previous: ScanMap)
      returns (newScans: ScanMap, ok: bool, payload: Option<P.Payload>, ghost order: seq<ScannerID>, ms: seq<EDPMeasurement>)
      requires |scanners| == |outcomes|
      modifies this
      ensures var o := Collect(scanners, edp, outcomes, sendOk, previous);
              newScans == o.scans && ok == o.ok && payload.Some? == o.billed
      ensures MeasuredInOrder(edp, newScans, order, ms)
      ensures payload.Some? ==>
                payload.value == P.Payload(info.runtimeID, info.subAccountID, info.shootName, timestamp, P.Aggregate(ms))
      ensures Distinct(scanners) ==> Accounted(scanners, edp, outcomes, previous, old(scans), scans, old(conversions), conversions)
    {
      var current, scanned := ExecuteScans(outcomes, previous);
      ghost var between := conversions;
      var converted;
      newScans, ms, converted, order := ConvertScansToEDPMeasurements(current, previous);
      if Distinct(scanners) { PassAccounts(scanners, edp, outcomes, previous, old(scans), scans, old(conversions), between, conversions); }
      NothingMeasured(edp, newScans, order, ms);
      if |ms| == 0 { return newScans, false, None, order, ms; }
      var p := P.NewPayload(info, timestamp, ms);
      return newScans, scanned && converted && sendOk, Some(p), order, ms;
    }
  }

  lemma MeasuredSnoc(edp: Edp, used: ScanMap, order: seq<ScannerID>, ms: seq<EDPMeasurement>, id: ScannerID, scan: Scan)
    requires MeasuredInOrder(edp, used, order, ms) && id !in used && edp(scan).Some?
    ensures MeasuredInOrder(edp, used[id := scan], order + [id], ms + [edp(scan).value])
  {
    var used', order' := used[id := scan], order + [id];
    assert id !in order by { assert id in order ==> id in IDs(order); }
    assert IDs(order') == used'.Keys by {
      forall x ensures x in IDs(order') <==> x in used' { assert x in order' <==> x in order || x == id; assert x in order <==> x in IDs(order); }
    }
  }

  // Counters.

  function ScansAfter(s0: multiset<Event>, scanners: seq<ScannerID>, outcomes: seq<Option<Scan>>, n: nat): multiset<Event>
    requires n <= |scanners| == |outcomes|
  {
    if n == 0 then s0
    else ScansAfter(s0, scanners, outcomes, n - 1) + multiset{Event(scanners[n - 1], outcomes[n - 1].Some?)}
  }

  /** A scanner that failed and has no previous scan is counted as a failed conversion already in stage one. */
  function Missing(id: ScannerID, outcome: Option<Scan>, previous: ScanMap): multiset<Event>
  {
    if outcome.None? && id !in previous then multiset{Event(id, false)} else multiset{}
  }

  function MissesAfter(c0: multiset<Event>, scanners: seq<ScannerID>, outcomes: seq<Option<Scan>>, previous: ScanMap, n: nat): multiset<Event>
    requires n <= |scanners| == |outcomes|
  {
    if n == 0 then c0
    else MissesAfter(c0, scanners, outcomes, previous, n - 1) + Missing(scanners[n - 1], outcomes[n - 1], previous)
  }

  function Counted(events: multiset<Event>, id: ScannerID): nat
  {
    events[Event(id, true)] + events[Event(id, false)]
  }

  lemma {:induction false} ScannedKeys(scanners: seq<ScannerID>, outcomes: seq<Option<Scan>>, previous: ScanMap, n: nat)
    requires n <= |scanners| == |outcomes|
    ensures var keys := ScannedTo(scanners, outcomes, previous, n).Keys;
            && keys <= IDs(scanners[..n])
            && IDs(scanners[..n]) * previous.Keys <= keys
            && (AllScanned(outcomes[..n]) ==> keys == IDs(scanners[..n]))
            && scanners[..|scanners|] == scanners && outcomes[..|outcomes|] == outcomes
  {
    if n > 0 {
      ScannedKeys(scanners, outcomes, previous, n - 1);
      assert scanners[..n] == scanners[..n - 1] + [scanners[n - 1]];
      assert outcomes[..n] == outcomes[..n - 1] + [outcomes[n - 1]];
    }
  }

  lemma {:induction false} ScansPerScanner(s0: multiset<Event>, scanners: seq<ScannerID>, outcomes: seq<Option<Scan>>, n: nat, id: ScannerID)
    requires n <= |scanners| == |outcomes| && Distinct(scanners)
    ensures Counted(ScansAfter(s0, scanners, outcomes, n), id) == Counted(s0, id) + if id in scanners[..n] then 1 else 0
  {
    if n > 0 {
      ScansPerScanner(s0, scanners, outcomes, n - 1, id);
      assert scanners[..n] == scanners[..n - 1] + [scanners[n - 1]];
    }
  }

  lemma MissCount(c: multiset<Event>, last: ScannerID, outcome: Option<Scan>, previous: ScanMap, id: ScannerID)
    ensures Counted(c + Missing(last, outcome, previous), id)
         == Counted(c, id) + if id == last && outcome.None? && last !in previous then 1 else 0
  {
  }

  lemma {:induction false} MissesPerScanner(c0: multiset<Event>,
      scanners: seq<ScannerID>, outcomes: seq<Option<Scan>>, previous: ScanMap, n: nat, id: ScannerID)
    requires n <= |scanners| == |outcomes| && Distinct(scanners)
    ensures Counted(MissesAfter(c0, scanners, outcomes, previous, n), id)
         == Counted(c0, id) + if id in scanners[..n] && id !in ScannedTo(scanners, outcomes, previous, n) then 1 else 0
  {
    if n > 0 {
      MissesPerScanner(c0, scanners, outcomes, previous, n - 1, id);
      var last, outcome := scanners[n - 1], outcomes[n - 1];
      MissCount(MissesAfter(c0, scanners, outcomes, previous, n - 1), last, outcome, previous, id);
      FirstScanners(scanners, n, id);
      NotYetScanned(scanners, outcomes, previous, n);
      var before, after := ScannedTo(scanners, outcomes, previous, n - 1), ScannedTo(scanners, outcomes, previous, n);
      assert id != last ==> (id in after <==> id in before);
      assert id == last ==> (id in after <==> outcome.Some? || last in previous);
    }
  }

  lemma FirstScanners(scanners: seq<ScannerID>, n: nat, id: ScannerID)
    requires 0 < n <= |scanners|
    ensures id in scanners[..n] <==> id in scanners[..n - 1] || id == scanners[n - 1]
  {
    assert scanners[..n] == scanners[..n - 1] + [scanners[n - 1]];
  }

  lemma NotYetScanned(scanners: seq<ScannerID>, outcomes: seq<Option<Scan>>, previous: ScanMap, n: nat)
    requires 0 < n <= |scanners| == |outcomes| && Distinct(scanners)
    ensures scanners[n - 1] !in scanners[..n - 1]
    ensures scanners[n - 1] !in ScannedTo(scanners, outcomes, previous, n - 1)
  {
    ScannedKeys(scanners, outcomes, previous, n - 1);
    var last := scanners[n - 1];
    assert last !in scanners[..n - 1];
    assert last !in IDs(scanners[..n - 1]);
  }

  lemma PerScanner(edp: Edp, current: ScanMap, c1: multiset<Event>, c2: multiset<Event>)
    requires forall id, b :: c2[Event(id, b)] == c1[Event(id, b)] + if id in current && edp(current[id]).Some? == b then 1 else 0
    ensures forall id :: Counted(c2, id) == Counted(c1, id) + if id in current then 1 else 0
  {
  }

  /** Stage one counts the scanners it leaves out, stage two the scans it visits: together every scanner once. */
  lemma OneEventPerScanner(scanners: seq<ScannerID>, outcomes: seq<Option<Scan>>, previous: ScanMap,
                           s0: multiset<Event>, s1: multiset<Event>, c0: multiset<Event>, c1: multiset<Event>, c2: multiset<Event>)
    requires |scanners| == |outcomes| && Distinct(scanners)
    requires s1 == ScansAfter(s0, scanners, outcomes, |scanners|)
    requires c1 == MissesAfter(c0, scanners, outcomes, previous, |scanners|)
    requires forall id :: Counted(c2, id) == Counted(c1, id) + if id in Scanned(scanners, outcomes, previous) then 1 else 0
    ensures forall id :: Counted(s1, id) == Counted(s0, id) + if id in scanners then 1 else 0
    ensures forall id :: Counted(c2, id) == Counted(c0, id) + if id in scanners then 1 else 0
  {
    var n := |scanners|;
    ScannedKeys(scanners, outcomes, previous, n);
    forall id ensures Counted(s1, id) == Counted(s0, id) + if id in scanners then 1 else 0
              ensures Counted(c2, id) == Counted(c0, id) + if id in scanners then 1 else 0
    {
      ScansPerScanner(s0, scanners, outcomes, n, id);
      MissesPerScanner(c0, scanners, outcomes, previous, n, id);
      assert id in Scanned(scanners, outcomes, previous) ==> id in IDs(scanners);
    }
  }

  /** The scan that stage one hands on, new or previous, converts. */
  predicate ScanConverts(edp: Edp, outcome: Option<Scan>, previous: ScanMap, id: ScannerID)
  {
    if outcome.Some? then edp(outcome.value).Some? else id in previous && edp(previous[id]).Some?
  }

  lemma {:induction false} ScansAsIs(s0: multiset<Event>, scanners: seq<ScannerID>, outcomes: seq<Option<Scan>>, n: nat, i: nat)
    requires i < |scanners| == |outcomes| && n <= |scanners| && Distinct(scanners)
    ensures ScansAfter(s0, scanners, outcomes, n)[Event(scanners[i], true)]
         == s0[Event(scanners[i], true)] + if i < n && outcomes[i].Some? then 1 else 0
  {
    if n > 0 { ScansAsIs(s0, scanners, outcomes, n - 1, i); }
  }

  lemma {:induction false} MissesAsIs(c0: multiset<Event>, scanners: seq<ScannerID>, outcomes: seq<Option<Scan>>, previous: ScanMap, n: nat, id: ScannerID)
    requires n <= |scanners| == |outcomes|
    ensures MissesAfter(c0, scanners, outcomes, previous, n)[Event(id, true)] == c0[Event(id, true)]
  {
    if n > 0 { MissesAsIs(c0, scanners, outcomes, previous, n - 1, id); }
  }

  /** Outcomes are counted as the success they were. */
  lemma CountedAsIs(scanners: seq<ScannerID>, edp: Edp, outcomes: seq<Option<Scan>>, previous: ScanMap, s0: multiset<Event>, c0: multiset<Event>)
    requires |scanners| == |outcomes| && Distinct(scanners)
    ensures forall i :: 0 <= i < |scanners| ==>
              && ScansAfter(s0, scanners, outcomes, |scanners|)[Event(scanners[i], true)]
                 == s0[Event(scanners[i], true)] + (if outcomes[i].Some? then 1 else 0)
              && MissesAfter(c0, scanners, outcomes, previous, |scanners|)[Event(scanners[i], true)] == c0[Event(scanners[i], true)]
              && var current := Scanned(scanners, outcomes, previous);
                 scanners[i] in current && edp(current[scanners[i]]).Some? <==> ScanConverts(edp, outcomes[i], previous, scanners[i])
  {
    forall i | 0 <= i < |scanners|
      ensures ScansAfter(s0, scanners, outcomes, |scanners|)[Event(scanners[i], true)]
              == s0[Event(scanners[i], true)] + (if outcomes[i].Some? then 1 else 0)
      ensures MissesAfter(c0, scanners, outcomes, previous, |scanners|)[Event(scanners[i], true)] == c0[Event(scanners[i], true)]
      ensures var current := Scanned(scanners, outcomes, previous);
              scanners[i] in current && edp(current[scanners[i]]).Some? <==> ScanConverts(edp, outcomes[i], previous, scanners[i])
    {
      ScansAsIs(s0, scanners, outcomes, |scanners|, i);
      MissesAsIs(c0, scanners, outcomes, previous, |scanners|, scanners[i]);
      ScannedAt(scanners, outcomes, previous, i, |scanners|);
    }
  }

  /** A pass counts one scan outcome and one conversion outcome per scanner, each as the success or failure it was. */
  ghost predicate Accounted(scanners: seq<ScannerID>, edp: Edp, outcomes: seq<Option<Scan>>, previous: ScanMap,
                            s0: multiset<Event>, s1: multiset<Event>, c0: multiset<Event>, c1: multiset<Event>)
    requires |scanners| == |outcomes|
  {
    && (forall id :: Counted(s1, id) == Counted(s0, id) + if id in scanners then 1 else 0)
    && (forall id :: Counted(c1, id) == Counted(c0, id) + if id in scanners then 1 else 0)
    && forall i :: 0 <= i < |scanners| ==>
         && s1[Event(scanners[i], true)] == s0[Event(scanners[i], true)] + (if outcomes[i].Some? then 1 else 0)
         && c1[Event(scanners[i], true)] == c0[Event(scanners[i], true)]
              + (if ScanConverts(edp, outcomes[i], previous, scanners[i]) then 1 else 0)
  }

  lemma PassAccounts(scanners: seq<ScannerID>, edp: Edp, outcomes: seq<Option<Scan>>, previous: ScanMap,
                     s0: multiset<Event>, s1: multiset<Event>, c0: multiset<Event>, c1: multiset<Event>, c2: multiset<Event>)
    requires |scanners| == |outcomes| && Distinct(scanners)
    requires s1 == ScansAfter(s0, scanners, outcomes, |scanners|)
    requires c1 == MissesAfter(c0, scanners, outcomes, previous, |scanners|)
    requires var current := Scanned(scanners, outcomes, previous);
             forall id, b :: c2[Event(id, b)] == c1[Event(id, b)] + if id in current && edp(current[id]).Some? == b then 1 else 0
    ensures Accounted(scanners, edp, outcomes, previous, s0, s1, c0, c2)
  {
    PerScanner(edp, Scanned(scanners, outcomes, previous), c1, c2);
    OneEventPerScanner(scanners, outcomes, previous, s0, s1, c0, c1, c2);
    CountedAsIs(scanners, edp, outcomes, previous, s0, c0);
  }

  lemma NothingMeasured(edp: Edp, used: ScanMap, order: seq<ScannerID>, ms: seq<EDPMeasurement>)
    requires MeasuredInOrder(edp, used, order, ms)
    ensures |ms| == 0 <==> used == map[]
  {
    if |ms| > 0 { assert order[0] in used; }
    if id :| id in used { assert id in IDs(order); }
  }

  // What a pass guarantees.

  /** A full set of convertible scans, one per scanner. */
  predicate Complete(scanners: seq<ScannerID>, edp: Edp, scans: ScanMap)
  {
    scans.Keys == IDs(scanners) && AllConvert(edp, scans)
  }

  lemma {:induction false} ScannedAt(scanners: seq<ScannerID>, outcomes: seq<Option<Scan>>, previous: ScanMap, i: nat, n: nat)
    requires i < n <= |scanners| == |outcomes| && Distinct(scanners)
    ensures var id, current := scanners[i], ScannedTo(scanners, outcomes, previous, n);
            && (id in current <==> outcomes[i].Some? || id in previous)
            && (outcomes[i].Some? ==> current[id] == outcomes[i].value)
            && (outcomes[i].None? && id in previous ==> current[id] == previous[id])
  {
    if i == n - 1 { NotYetScanned(scanners, outcomes, previous, n); } else { ScannedAt(scanners, outcomes, previous, i, n - 1); }
  }

  /** The two stages together obey one rule per scanner: bill the new scan if it was taken and converts,
      otherwise the previous scan if that converts, otherwise nothing. */
  lemma FallbackRule(scanners: seq<ScannerID>, edp: Edp, outcomes: seq<Option<Scan>>, sendOk: bool, previous: ScanMap, i: nat)
    requires i < |scanners| == |outcomes| && Distinct(scanners)
    ensures var id, used := scanners[i], Collect(scanners, edp, outcomes, sendOk, previous).scans;
            var taken := outcomes[i].Some? && edp(outcomes[i].value).Some?;
            && (id in used <==> taken || Usable(edp, previous, id))
            && (taken ==> used[id] == outcomes[i].value)
            && (!taken && id in used ==> used[id] == previous[id])
  {
    ScannedAt(scanners, outcomes, previous, i, |scanners|);
  }

  /** Every scan of stage one comes from this pass or from the previous map. */
  lemma {:induction false} ScannedOrigin(scanners: seq<ScannerID>, outcomes: seq<Option<Scan>>, previous: ScanMap, n: nat, id: ScannerID)
    requires n <= |scanners| == |outcomes| && id in ScannedTo(scanners, outcomes, previous, n)
    ensures var s := ScannedTo(scanners, outcomes, previous, n)[id];
            Some(s) in outcomes || (id in previous && s == previous[id] && !AllScanned(outcomes))
  {
    if scanners[n - 1] != id || (outcomes[n - 1].None? && id !in previous) {
      ScannedOrigin(scanners, outcomes, previous, n - 1, id);
    }
  }

  /** Every scan billed comes from this pass or from the previous map. */
  lemma UsedOrigin(scanners: seq<ScannerID>, edp: Edp, outcomes: seq<Option<Scan>>, sendOk: bool, previous: ScanMap, id: ScannerID)
    requires |scanners| == |outcomes|
    requires id in Collect(scanners, edp, outcomes, sendOk, previous).scans
    ensures var o := Collect(scanners, edp, outcomes, sendOk, previous);
            && (Some(o.scans[id]) in outcomes || (id in previous && o.scans[id] == previous[id]))
            && (o.ok ==> Some(o.scans[id]) in outcomes)
  {
    ScannedOrigin(scanners, outcomes, previous, |scanners|, id);
  }

  /** A pass without error returns a complete map taken entirely in this pass. */
  lemma SuccessIsSnapshot(scanners: seq<ScannerID>, edp: Edp, outcomes: seq<Option<Scan>>, sendOk: bool, previous: ScanMap)
    requires |scanners| == |outcomes|
    requires Collect(scanners, edp, outcomes, sendOk, previous).ok
    ensures var scans := Collect(scanners, edp, outcomes, sendOk, previous).scans;
            && Complete(scanners, edp, scans)
            && forall id :: id in scans ==> Some(scans[id]) in outcomes
  {
    ScannedKeys(scanners, outcomes, previous, |scanners|);
    var o := Collect(scanners, edp, outcomes, sendOk, previous);
    forall id | id in o.scans ensures Some(o.scans[id]) in outcomes {
      UsedOrigin(scanners, edp, outcomes, sendOk, previous, id);
    }
  }

  /** With distinct scanner IDs, a pass ends without error exactly when there are scanners, every scan succeeds,
      every scan converts, and the backend accepts the payload. */
  lemma OkIff(scanners: seq<ScannerID>, edp: Edp, outcomes: seq<Option<Scan>>, sendOk: bool, previous: ScanMap)
    requires |scanners| == |outcomes| && Distinct(scanners)
    ensures Collect(scanners, edp, outcomes, sendOk, previous).ok <==>
              && |scanners| > 0 && sendOk
              && forall i :: 0 <= i < |outcomes| ==> outcomes[i].Some? && edp(outcomes[i].value).Some?
  {
    var current := Scanned(scanners, outcomes, previous);
    ScannedKeys(scanners, outcomes, previous, |scanners|);
    forall i | 0 <= i < |scanners| && outcomes[i].Some? ensures scanners[i] in current && current[scanners[i]] == outcomes[i].value {
      ScannedAt(scanners, outcomes, previous, i, |scanners|);
    }
    if |scanners| > 0 { FallbackRule(scanners, edp, outcomes, sendOk, previous, 0); }
  }

  /** A payload is built exactly when some scanner has a new or a previous scan that converts. */
  lemma BilledIff(scanners: seq<ScannerID>, edp: Edp, outcomes: seq<Option<Scan>>, sendOk: bool, previous: ScanMap)
    requires |scanners| == |outcomes| && Distinct(scanners)
    ensures Collect(scanners, edp, outcomes, sendOk, previous).billed <==>
              exists i :: 0 <= i < |scanners| &&
                ((outcomes[i].Some? && edp(outcomes[i].value).Some?)
                 || (scanners[i] in previous && edp(previous[scanners[i]]).Some?))
  {
    var used := Collect(scanners, edp, outcomes, sendOk, previous).scans;
    ScannedKeys(scanners, outcomes, previous, |scanners|);
    forall i | 0 <= i < |scanners|
      ensures scanners[i] in used <==> (outcomes[i].Some? && edp(outcomes[i].value).Some?)
                                       || (scanners[i] in previous && edp(previous[scanners[i]]).Some?)
    {
      FallbackRule(scanners, edp, outcomes, sendOk, previous, i);
    }
    if id :| id in used { assert id in IDs(scanners); }
  }

  /** Fallback is total once the previous map is complete: whichever scans and conversions fail, the pass
      bills one measurement per scanner and returns a complete map. */
  lemma FallbackComplete(scanners: seq<ScannerID>, edp: Edp, outcomes: seq<Option<Scan>>, sendOk: bool, previous: ScanMap)
    requires |scanners| == |outcomes| && Complete(scanners, edp, previous)
    ensures Complete(scanners, edp, Collect(scanners, edp, outcomes, sendOk, previous).scans)
  {
    ScannedKeys(scanners, outcomes, previous, |scanners|);
  }

  lemma {:induction false} DistinctLength(order: seq<ScannerID>)
    requires Distinct(order)
    ensures |IDs(order)| == |order|
  {
    if order != [] {
      var n := |order| - 1;
      DistinctLength(order[..n]);
      assert order == order[..n] + [order[n]];
      assert IDs(order) == IDs(order[..n]) + {order[n]};
    }
  }

  lemma OneMeasurementPerScanner(scanners: seq<ScannerID>, edp: Edp, used: ScanMap, order: seq<ScannerID>, ms: seq<EDPMeasurement>)
    requires Distinct(scanners) && Complete(scanners, edp, used) && MeasuredInOrder(edp, used, order, ms)
    ensures |ms| == |scanners|
    ensures forall i :: 0 <= i < |scanners| ==> scanners[i] in used && edp(used[scanners[i]]).value in ms
  {
    DistinctLength(scanners);
    DistinctLength(order);
    forall i | 0 <= i < |scanners| ensures scanners[i] in used && edp(used[scanners[i]]).value in ms {
      assert scanners[i] in IDs(scanners);
      assert scanners[i] in IDs(order);
      var j :| 0 <= j < |order| && order[j] == scanners[i];
      assert ms[j] in ms;
    }
  }

  // Order independence of the payload.

  /** One measurement per used scan, in some order, each any measurement its conversion may give: a node scan
      lists its machine types in whatever order its map yields them. */
  ghost predicate Measures(cat: P.Catalogue, used: ScanMap, order: seq<ScannerID>, ms: seq<EDPMeasurement>)
  {
    && Distinct(order) && IDs(order) == used.Keys && |order| == |ms|
    && forall i :: 0 <= i < |ms| ==> order[i] in used && P.Converts(cat, used[order[i]].data, ms[i])
  }

  function Omit(order: seq<ScannerID>, i: nat): seq<ScannerID>
    requires i < |order|
  {
    order[..i] + order[i + 1..]
  }

  lemma OmitOne(order: seq<ScannerID>, i: nat)
    requires i < |order| && Distinct(order)
    ensures Distinct(Omit(order, i)) && IDs(Omit(order, i)) == IDs(order) - {order[i]}
  {
    forall id ensures id in Omit(order, i) <==> id in order && id != order[i] {
      assert order == order[..i] + [order[i]] + order[i + 1..];
      assert forall j :: 0 <= j < |order| && j != i ==> order[j] != order[i];
    }
  }

  /** Measurements that agree per scanner add up to the same bill in any two orders. */
  lemma {:induction false} ReorderedBill(o1: seq<ScannerID>, m1: seq<EDPMeasurement>, o2: seq<ScannerID>, m2: seq<EDPMeasurement>)
    requires Distinct(o1) && Distinct(o2) && IDs(o1) == IDs(o2) && |o1| == |m1| && |o2| == |m2|
    requires forall i, j :: 0 <= i < |o1| && 0 <= j < |o2| && o1[i] == o2[j] ==> P.SameBill(m1[i], m2[j])
    ensures P.SameBill(P.Aggregate(m1), P.Aggregate(m2))
    decreases |o1|
  {
    assert o2 != [] ==> o2[0] in IDs(o2);
    if o1 != [] {
      assert o1[0] in IDs(o1);
      assert o1[0] in IDs(o2);
      var j :| 0 <= j < |o2| && o2[j] == o1[0];
      OmitOne(o1, 0);
      OmitOne(o2, j);
      ReorderedBill(Omit(o1, 0), P.Drop(m1, 0), Omit(o2, j), P.Drop(m2, j));
      P.MoveToEnd(m1, 0);
      P.MoveToEnd(m2, j);
    }
  }

  /** The payload of a pass is the same bill whatever order the scans and the machine types of each node scan are
      walked in. */
  lemma PassOrderIndependent(cat: P.Catalogue, used: ScanMap,
                             o1: seq<ScannerID>, m1: seq<EDPMeasurement>, o2: seq<ScannerID>, m2: seq<EDPMeasurement>)
    requires Measures(cat, used, o1, m1) && Measures(cat, used, o2, m2)
    ensures P.SameBill(P.Aggregate(m1), P.Aggregate(m2))
  {
    forall i, j | 0 <= i < |o1| && 0 <= j < |o2| && o1[i] == o2[j] ensures P.SameBill(m1[i], m2[j]) {
      P.ConversionDeterministic(cat, used[o1[i]].data, m1[i], m2[j]);
    }
    ReorderedBill(o1, m1, o2, m2);
  }

  /** The conversions in use are those of the resource scans. */
  ghost predicate Converting(edp: Edp, cat: P.Catalogue)
  {
    forall scan: Scan :: edp(scan).Some? ==> P.Converts(cat, scan.data, edp(scan).value)
  }

  /** What CollectAndSend aggregates is covered by these statements. */
  lemma MeasuredByConversions(cat: P.Catalogue, edp: Edp, used: ScanMap, order: seq<ScannerID>, ms: seq<EDPMeasurement>)
    requires Converting(edp, cat) && MeasuredInOrder(edp, used, order, ms)
    ensures Measures(cat, used, order, ms)
  {
  }

  // A chain of passes, each fed the map the one before returned.

  datatype Input = Input(outcomes: seq<Option<Scan>>, sendOk: bool)

  ghost predicate Fits(scanners: seq<ScannerID>, inputs: seq<Input>)
  {
    forall i :: 0 <= i < |inputs| ==> |inputs[i].outcomes| == |scanners|
  }

  function Chain(scanners: seq<ScannerID>, edp: Edp, inputs: seq<Input>): ScanMap
    requires Fits(scanners, inputs)
  {
    if inputs == [] then map[]
    else
      var last := inputs[|inputs| - 1];
      Collect(scanners, edp, last.outcomes, last.sendOk, Chain(scanners, edp, inputs[..|inputs| - 1])).scans
  }

  /** The branch in which converting the previous scan fails too. */
  predicate DeadEnd(edp: Edp, current: ScanMap, previous: ScanMap, id: ScannerID)
  {
    id in current && !Usable(edp, current, id) && id in previous && !Usable(edp, previous, id)
  }

  /** Along a chain every returned scan converts, coverage never shrinks, and the dead end is never reached. */
  lemma {:induction false} ChainInvariant(scanners: seq<ScannerID>, edp: Edp, inputs: seq<Input>, next: Input)
    requires Fits(scanners, inputs) && |next.outcomes| == |scanners|
    ensures Fits(scanners, inputs + [next])
    ensures var before, after := Chain(scanners, edp, inputs), Chain(scanners, edp, inputs + [next]);
            && AllConvert(edp, before) && before.Keys <= after.Keys <= IDs(scanners)
            && forall id :: !DeadEnd(edp, Scanned(scanners, next.outcomes, before), before, id)
  {
    assert (inputs + [next])[..|inputs|] == inputs;
    var before := Chain(scanners, edp, inputs);
    ScannedKeys(scanners, next.outcomes, before, |scanners|);
    if inputs != [] {
      var n := |inputs| - 1;
      ChainInvariant(scanners, edp, inputs[..n], inputs[n]);
      assert inputs[..n] + [inputs[n]] == inputs;
    }
  }
}
