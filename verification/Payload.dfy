/** Conversion of any scan, and aggregation of the measurements into the payload sent to the billing backend. */
module Payload {
  import opened Domain
  import opened Sums
  import Nodes
  import Volumes

  datatype Payload = Payload(runtimeID: string, subAccountID: string, shootName: string, timestamp: string, compute: EDPMeasurement)

  function Combine(a: EDPMeasurement, m: EDPMeasurement): EDPMeasurement
  {
    EDPMeasurement(
      a.vmTypes + m.vmTypes,
      a.provisionedCPUs + m.provisionedCPUs,
      a.provisionedRAMGb + m.provisionedRAMGb,
      ProvisionedVolumes(
        a.provisionedVolumes.sizeGbTotal + m.provisionedVolumes.sizeGbTotal,
        a.provisionedVolumes.count + m.provisionedVolumes.count,
        a.provisionedVolumes.sizeGbRounded + m.provisionedVolumes.sizeGbRounded))
  }

  function Aggregate(ms: seq<EDPMeasurement>): EDPMeasurement
  {
    if ms == [] then NO_MEASUREMENT else Combine(Aggregate(ms[..|ms| - 1]), ms[|ms| - 1])
  }

  method AggregateEDPMeasurements(ms: seq<EDPMeasurement>) returns (r: EDPMeasurement)
    ensures r == Aggregate(ms)
  {
    r := NO_MEASUREMENT;
    for i := 0 to |ms|
      invariant r == Aggregate(ms[..i])
    {
      assert ms[..i + 1][..i] == ms[..i];
      r := Combine(r, ms[i]);
    }
    assert ms[..|ms|] == ms;
  }

  method NewPayload(info: Info, timestamp: string, ms: seq<EDPMeasurement>) returns (p: Payload)
    ensures p == Payload(info.runtimeID, info.subAccountID, info.shootName, timestamp, Aggregate(ms))
  {
    var compute := AggregateEDPMeasurements(ms);
    p := Payload(info.runtimeID, info.subAccountID, info.shootName, timestamp, compute);
  }

  /** Every number of the payload is the sum of that number over the measurements, and every machine type entry
      occurs as often as in all the measurements together. */
  lemma {:induction false} AggregateConserves(ms: seq<EDPMeasurement>, vm: VMType)
    ensures var a := Aggregate(ms);
            && a.provisionedCPUs == RealSum(ms, (m: EDPMeasurement) => m.provisionedCPUs)
            && a.provisionedRAMGb == RealSum(ms, (m: EDPMeasurement) => m.provisionedRAMGb)
            && a.provisionedVolumes.sizeGbTotal == IntSum(ms, (m: EDPMeasurement) => m.provisionedVolumes.sizeGbTotal)
            && a.provisionedVolumes.count == IntSum(ms, (m: EDPMeasurement) => m.provisionedVolumes.count)
            && a.provisionedVolumes.sizeGbRounded == IntSum(ms, (m: EDPMeasurement) => m.provisionedVolumes.sizeGbRounded)
            && multiset(a.vmTypes)[vm] == IntSum(ms, (m: EDPMeasurement) => multiset(m.vmTypes)[vm])
  {
    if ms != [] { AggregateConserves(ms[..|ms| - 1], vm); }
  }

  // Order independence.

  /** A measurement seen as a bill: machine types with their multiplicities, and sums. */
  datatype BillView = BillView(types: multiset<VMType>, sums: EDPMeasurement)

  function ViewOf(m: EDPMeasurement): BillView
  {
    BillView(multiset(m.vmTypes), m.(vmTypes := []))
  }

  ghost predicate SameBill(a: EDPMeasurement, b: EDPMeasurement)
  {
    ViewOf(a) == ViewOf(b)
  }

  function AddTo(v: BillView, m: BillView): BillView
  {
    BillView(v.types + m.types, Combine(v.sums, m.sums).(vmTypes := []))
  }

  lemma ViewOfCombine(a: EDPMeasurement, m: EDPMeasurement)
    ensures ViewOf(Combine(a, m)) == AddTo(ViewOf(a), ViewOf(m))
  {
  }

  lemma AddToCommutes(v: BillView, m: BillView, n: BillView)
    ensures AddTo(AddTo(v, m), n) == AddTo(AddTo(v, n), m)
  {
  }

  function Drop(ms: seq<EDPMeasurement>, i: nat): seq<EDPMeasurement>
    requires i < |ms|
  {
    ms[..i] + ms[i + 1..]
  }

  lemma AggregateSnoc(ms: seq<EDPMeasurement>, m: EDPMeasurement)
    ensures ViewOf(Aggregate(ms + [m])) == AddTo(ViewOf(Aggregate(ms)), ViewOf(m))
  {
    assert (ms + [m])[..|ms|] == ms;
    ViewOfCombine(Aggregate(ms), m);
  }

  lemma DropSnoc(ms: seq<EDPMeasurement>, m: EDPMeasurement, i: nat)
    requires i < |ms|
    ensures Drop(ms + [m], i) == Drop(ms, i) + [m] && Drop(ms + [m], |ms|) == ms
  {
  }

  /** Moving one measurement to the end changes no bill. */
  lemma {:induction false} MoveToEnd(ms: seq<EDPMeasurement>, i: nat)
    requires i < |ms|
    ensures ViewOf(Aggregate(ms)) == AddTo(ViewOf(Aggregate(Drop(ms, i))), ViewOf(ms[i]))
  {
    var front, last := ms[..|ms| - 1], ms[|ms| - 1];
    assert ms == front + [last];
    AggregateSnoc(front, last);
    if i == |front| {
      assert Drop(ms, i) == front;
    } else {
      MoveToEnd(front, i);
      DropSnoc(front, last, i);
      AggregateSnoc(Drop(front, i), last);
      AddToCommutes(ViewOf(Aggregate(Drop(front, i))), ViewOf(front[i]), ViewOf(last));
      assert ms[i] == front[i];
    }
  }

  /** The payload is the same bill for every order in which the scans are visited. */
  lemma {:induction false} OrderIndependent(xs: seq<EDPMeasurement>, ys: seq<EDPMeasurement>)
    requires multiset(xs) == multiset(ys)
    ensures SameBill(Aggregate(xs), Aggregate(ys))
    decreases |xs|
  {
    assert |multiset(xs)| == |xs| && |multiset(ys)| == |ys|;
    if xs != [] {
      var n := |xs| - 1;
      assert xs[n] in multiset(ys);
      var i :| 0 <= i < |ys| && ys[i] == xs[n];
      RemoveOne(xs, n);
      RemoveOne(ys, i);
      assert multiset(Drop(xs, n)) == multiset(xs) - multiset{xs[n]};
      assert multiset(Drop(ys, i)) == multiset(ys) - multiset{xs[n]};
      OrderIndependent(Drop(xs, n), Drop(ys, i));
      MoveToEnd(xs, n);
      MoveToEnd(ys, i);
    }
  }

  /** Nor does it depend on the order in which a histogram lists its machine types. */
  lemma {:induction false} EntryOrderIndependent(xs: seq<EDPMeasurement>, ys: seq<EDPMeasurement>)
    requires |xs| == |ys| && forall i :: 0 <= i < |xs| ==> SameBill(xs[i], ys[i])
    ensures SameBill(Aggregate(xs), Aggregate(ys))
  {
    if xs != [] {
      var n := |xs| - 1;
      EntryOrderIndependent(xs[..n], ys[..n]);
      ViewOfCombine(Aggregate(xs[..n]), xs[n]);
      ViewOfCombine(Aggregate(ys[..n]), ys[n]);
    }
  }

  // Converting a scan.

  datatype Catalogue = Catalogue(specs: Nodes.Specs, prices: map<string, int>)

  /** `m` is a measurement the conversion of `data` may produce. Only a node scan leaves a choice: the order of its histogram. */
  ghost predicate Converts(cat: Catalogue, data: ScanData, m: EDPMeasurement)
  {
    match data
    case NodeScan(provider, labels) =>
      var ts := Nodes.KnownTypes(cat.specs, provider, labels);
      && |ts| == |labels|
      && Nodes.IsHistogram(m.vmTypes, ts)
      && m.(vmTypes := []) == EDPMeasurement([],
           RealSum(ts, t => Nodes.FeatureOf(cat.specs, provider, t).cpuCores),
           RealSum(ts, t => Nodes.FeatureOf(cat.specs, provider, t).memory), NO_VOLUMES)
    case PvcScan(pvcs) =>
      m == NO_MEASUREMENT.(provisionedVolumes := Volumes.Tally(Volumes.BilledSizes(pvcs)))
    case VscScan(vscs) =>
      && (forall i :: 0 <= i < |vscs| ==> !Volumes.Sizeless(vscs[i]))
      && m == NO_MEASUREMENT.(provisionedVolumes := Volumes.Tally(Volumes.SnapshotSizes(vscs)))
    case RedisScan(aws, azure, gcp) =>
      var total := Volumes.PriceTotal(aws + azure + gcp, cat.prices);
      && (forall t :: t in aws + azure + gcp ==> t in cat.prices)
      && m == NO_MEASUREMENT.(provisionedVolumes := ProvisionedVolumes(total, |aws + azure + gcp|, total))
  }

  /** The EDP method of every scan: a measurement, or None for an error. */
  method ConvertScan(cat: Catalogue, data: ScanData) returns (r: Option<EDPMeasurement>)
    ensures r.Some? ==> Converts(cat, data, r.value)
    ensures r.None? ==> forall m :: !Converts(cat, data, m)
  {
    var m, ok := NO_MEASUREMENT, true;
    match data {
      case NodeScan(provider, labels) => m, ok := Nodes.NodeEDP(cat.specs, provider, labels);
      case PvcScan(pvcs) => m := Volumes.PvcEDP(pvcs);
      case VscScan(vscs) => m, ok := Volumes.VscEDP(vscs);
      case RedisScan(aws, azure, gcp) => m, ok := Volumes.RedisEDP(aws, azure, gcp, cat.prices);
    }
    r := if ok then Some(m) else None;
  }

  lemma {:induction false} DistinctBag(vms: seq<VMType>, x: VMType)
    requires forall i, j :: 0 <= i < j < |vms| ==> vms[i].name != vms[j].name
    ensures multiset(vms)[x] == if x in vms then 1 else 0
  {
    if vms != [] {
      DistinctBag(vms[..|vms| - 1], x);
      assert vms == vms[..|vms| - 1] + [vms[|vms| - 1]];
    }
  }

  lemma HistogramEntry(v: seq<VMType>, w: seq<VMType>, ts: seq<string>, x: VMType)
    requires Nodes.IsHistogram(v, ts) && Nodes.IsHistogram(w, ts) && x in v
    ensures x in w
  {
    assert Nodes.Count(ts, x.name) > 0;
    assert Nodes.Listed(w, x.name);
    var i :| 0 <= i < |w| && w[i].name == x.name;
    assert w[i] == x;
  }

  /** Conversion is deterministic up to the order of histogram entries. */
  lemma ConversionDeterministic(cat: Catalogue, data: ScanData, m: EDPMeasurement, n: EDPMeasurement)
    requires Converts(cat, data, m) && Converts(cat, data, n)
    ensures SameBill(m, n)
  {
    if data.NodeScan? {
      var ts := Nodes.KnownTypes(cat.specs, data.provider, data.instanceTypes);
      forall x: VMType ensures multiset(m.vmTypes)[x] == multiset(n.vmTypes)[x] {
        DistinctBag(m.vmTypes, x);
        DistinctBag(n.vmTypes, x);
        if x in m.vmTypes { HistogramEntry(m.vmTypes, n.vmTypes, ts, x); }
        if x in n.vmTypes { HistogramEntry(n.vmTypes, m.vmTypes, ts, x); }
      }
    }
  }

  /** When a scan converts, on what the cluster reported: every machine type known, every ready snapshot with a
      restore size, every tier priced; claims always convert. */
  predicate Convertible(cat: Catalogue, data: ScanData)
  {
    match data
    case NodeScan(provider, labels) =>
      forall j :: 0 <= j < |labels| ==> provider in cat.specs && ToLower(labels[j]) in cat.specs[provider]
    case PvcScan(_) => true
    case VscScan(vscs) =>
      forall i :: 0 <= i < |vscs| && vscs[i].status.Some? && vscs[i].status.value.readyToUse == Some(true) ==>
        vscs[i].status.value.restoreSize.Some?
    case RedisScan(aws, azure, gcp) =>
      (forall t :: t in aws ==> t in cat.prices) && (forall t :: t in azure ==> t in cat.prices) && (forall t :: t in gcp ==> t in cat.prices)
  }

  lemma ConvertibleIff(cat: Catalogue, data: ScanData)
    ensures (exists m :: Converts(cat, data, m)) <==> Convertible(cat, data)
  {
    if data.NodeScan? { Nodes.AllKnownIff(cat.specs, data.provider, data.instanceTypes); }
    if Convertible(cat, data) { var m := Conversion(cat, data); }
  }

  lemma Conversion(cat: Catalogue, data: ScanData) returns (m: EDPMeasurement)
    requires Convertible(cat, data)
    ensures Converts(cat, data, m)
  {
    match data {
      case NodeScan(provider, labels) =>
        var ts := Nodes.KnownTypes(cat.specs, provider, labels);
        Nodes.AllKnownIff(cat.specs, provider, labels);
        var vms := Nodes.HistogramExists(ts);
        m := EDPMeasurement(vms, RealSum(ts, t => Nodes.FeatureOf(cat.specs, provider, t).cpuCores),
                            RealSum(ts, t => Nodes.FeatureOf(cat.specs, provider, t).memory), NO_VOLUMES);
      case PvcScan(pvcs) => m := NO_MEASUREMENT.(provisionedVolumes := Volumes.Tally(Volumes.BilledSizes(pvcs)));
      case VscScan(vscs) => m := NO_MEASUREMENT.(provisionedVolumes := Volumes.Tally(Volumes.SnapshotSizes(vscs)));
      case RedisScan(aws, azure, gcp) =>
        var total := Volumes.PriceTotal(aws + azure + gcp, cat.prices);
        m := NO_MEASUREMENT.(provisionedVolumes := ProvisionedVolumes(total, |aws + azure + gcp|, total));
    }
  }

  // What is billed for each kind of scan, stated on what the cluster reported.

  /** Nodes: machine types with their numbers of nodes, all nodes among them, and no volumes. */
  lemma NodeBill(cat: Catalogue, provider: string, labels: seq<string>, m: EDPMeasurement, i: nat, j: nat)
    requires Converts(cat, NodeScan(provider, labels), m)
    ensures m.provisionedVolumes == ProvisionedVolumes(0, 0, 0)
    ensures i < |m.vmTypes| ==> m.vmTypes[i].count == |Nodes.NodesOf(labels, m.vmTypes[i].name)| > 0
    ensures j < |labels| ==> && provider in cat.specs && ToLower(labels[j]) in cat.specs[provider]
                             && exists n :: 0 <= n < |m.vmTypes| && m.vmTypes[n].name == ToLower(labels[j])
  {
    if i < |m.vmTypes| { Nodes.EntryOfLabels(cat.specs, provider, labels, m.vmTypes, i); }
    if j < |labels| {
      Nodes.AllKnownIff(cat.specs, provider, labels);
      Nodes.LabelHasEntry(cat.specs, provider, labels, m.vmTypes, j);
    }
  }

  /** Nodes: CPU and memory of the machine type of each node, added up. */
  lemma NodeTotals(cat: Catalogue, provider: string, labels: seq<string>, m: EDPMeasurement, cpus: string -> real, memory: string -> real)
    requires Converts(cat, NodeScan(provider, labels), m)
    requires forall l :: cpus(l) == if provider in cat.specs && ToLower(l) in cat.specs[provider] then cat.specs[provider][ToLower(l)].cpuCores else 0.0
    requires forall l :: memory(l) == if provider in cat.specs && ToLower(l) in cat.specs[provider] then cat.specs[provider][ToLower(l)].memory else 0.0
    ensures m.provisionedCPUs == RealSum(labels, cpus) && m.provisionedRAMGb == RealSum(labels, memory)
  {
    Nodes.TotalsOfLabels(cat.specs, provider, labels, cpus, memory);
  }

  /** Claims and snapshots: one volume per bound claim or ready snapshot, with its size and its rounded size. */
  lemma VolumeBill(cat: Catalogue, data: ScanData, m: EDPMeasurement)
    requires Converts(cat, data, m) && WithinFloatRange(data) && (data.PvcScan? || data.VscScan?)
    ensures m.vmTypes == [] && m.provisionedCPUs == 0.0 && m.provisionedRAMGb == 0.0
    ensures data.PvcScan? ==> m.provisionedVolumes == ProvisionedVolumes(
              IntSum(data.pvcs, Volumes.ClaimGB), |set i | 0 <= i < |data.pvcs| && data.pvcs[i].bound|, IntSum(data.pvcs, Volumes.ClaimRounded))
    ensures data.VscScan? ==> m.provisionedVolumes == ProvisionedVolumes(
              IntSum(data.vscs, Volumes.SnapshotGB),
              |set i | 0 <= i < |data.vscs| && Volumes.Chargeable(data.vscs[i]).Some?|,
              IntSum(data.vscs, Volumes.SnapshotRounded))
  {
    match data {
      case PvcScan(pvcs) => Volumes.PvcBillOfClaims(pvcs); Volumes.BoundClaims(pvcs);
      case VscScan(vscs) => Volumes.VscBillOfSnapshots(vscs); Volumes.ChargeableSnapshots(vscs);
    }
  }

  /** Redis: one volume per instance, at the price of its tier, which is not rounded. */
  lemma RedisBill(cat: Catalogue, aws: seq<string>, azure: seq<string>, gcp: seq<string>, m: EDPMeasurement, price: string -> int)
    requires Converts(cat, RedisScan(aws, azure, gcp), m)
    requires forall t :: price(t) == if t in cat.prices then cat.prices[t] else 0
    ensures var total := IntSum(aws, price) + IntSum(azure, price) + IntSum(gcp, price);
            m == EDPMeasurement([], 0.0, 0.0, ProvisionedVolumes(total, |aws| + |azure| + |gcp|, total))
  {
    Volumes.RedisBillOfTiers(aws + azure + gcp, cat.prices, price);
    IntSumLaws(aws + azure, gcp, "", price);
    IntSumLaws(aws, azure, "", price);
  }

  // The whole bill.

  predicate WithinFloatRange(data: ScanData)
  {
    match data
    case PvcScan(pvcs) => forall i :: 0 <= i < |pvcs| ==> Volumes.WithinFloatRange(pvcs[i])
    case VscScan(vscs) => forall i :: 0 <= i < |vscs| ==> Volumes.SnapshotWithinFloatRange(vscs[i])
    case _ => true
  }

  lemma ConvertedWithinRounding(cat: Catalogue, data: ScanData, m: EDPMeasurement)
    requires Converts(cat, data, m) && WithinFloatRange(data)
    ensures Volumes.WithinRounding(m.provisionedVolumes)
  {
    match data {
      case PvcScan(pvcs) => Volumes.PvcMeasurementBounds(pvcs);
      case VscScan(vscs) => Volumes.VscMeasurementBounds(vscs);
      case _ =>
    }
  }

  /** Every payload built from any scans bills at least what is provisioned and at most 31 GB more per volume. */
  lemma {:induction false} PayloadWithinRounding(cat: Catalogue, datas: seq<ScanData>, ms: seq<EDPMeasurement>)
    requires |datas| == |ms|
    requires forall i :: 0 <= i < |ms| ==> Converts(cat, datas[i], ms[i]) && WithinFloatRange(datas[i])
    ensures Volumes.WithinRounding(Aggregate(ms).provisionedVolumes)
  {
    if ms != [] {
      var n := |ms| - 1;
      PayloadWithinRounding(cat, datas[..n], ms[..n]);
      ConvertedWithinRounding(cat, datas[n], ms[n]);
    }
  }
}
