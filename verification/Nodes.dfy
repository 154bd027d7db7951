/** Conversion of a node scan: summed CPU and memory, and a histogram of machine types. */
module Nodes {
  import opened Domain
  import opened Sums

  datatype Feature = Feature(cpuCores: real, memory: real)

  /** Machine types of one provider; an unknown provider has none. */
  type Specs = map<string, map<string, Feature>>

  predicate Known(specs: Specs, provider: string, t: string)
  {
    provider in specs && t in specs[provider]
  }

  function FeatureOf(specs: Specs, provider: string, t: string): Feature
  {
    if Known(specs, provider, t) then specs[provider][t] else Feature(0.0, 0.0)
  }

  function KnownTypes(specs: Specs, provider: string, labels: seq<string>): (ts: seq<string>)
    ensures |ts| <= |labels|
    ensures forall t :: t in ts ==> Known(specs, provider, t)
  {
    if labels == [] then []
    else
      var front, t := KnownTypes(specs, provider, labels[..|labels| - 1]), ToLower(labels[|labels| - 1]);
      if Known(specs, provider, t) then front + [t] else front
  }

  // Sums over nodes and over histogram entries.

  function Weighted(vms: seq<VMType>, f: string -> real): real
  {
    if vms == [] then 0.0
    else Weighted(vms[..|vms| - 1], f) + vms[|vms| - 1].count as real * f(vms[|vms| - 1].name)
  }

  function Count(ts: seq<string>, t: string): (n: nat)
    ensures n > 0 <==> t in ts
  {
    if ts == [] then 0
    else
      assert ts == ts[..|ts| - 1] + [ts[|ts| - 1]];
      Count(ts[..|ts| - 1], t) + (if ts[|ts| - 1] == t then 1 else 0)
  }

  lemma SnocCount(ts: seq<string>, t: string)
    ensures forall u :: Count(ts + [t], u) == Count(ts, u) + (if u == t then 1 else 0)
  {
    assert (ts + [t])[..|ts|] == ts;
  }

  function Without(ts: seq<string>, t: string): seq<string>
  {
    if ts == [] then []
    else if ts[|ts| - 1] == t then Without(ts[..|ts| - 1], t)
    else Without(ts[..|ts| - 1], t) + [ts[|ts| - 1]]
  }

  lemma {:induction false} WithoutCount(ts: seq<string>, t: string, u: string)
    ensures Count(Without(ts, t), u) == if u == t then 0 else Count(ts, u)
  {
    if ts != [] {
      var front := Without(ts[..|ts| - 1], t);
      WithoutCount(ts[..|ts| - 1], t, u);
      SnocCount(front, ts[|ts| - 1]);
    }
  }

  /** n * r as a sum, which is how nodes of one type add up. */
  function Repeated(n: nat, r: real): real
  {
    if n == 0 then 0.0 else Repeated(n - 1, r) + r
  }

  lemma {:induction false} RepeatedIsProduct(n: nat, r: real)
    ensures Repeated(n, r) == n as real * r
  {
    if n > 0 {
      RepeatedIsProduct(n - 1, r);
      assert n as real * r == (n - 1) as real * r + r;
    }
  }

  lemma {:induction false} WithoutSum(ts: seq<string>, t: string, f: string -> real)
    ensures RealSum(ts, f) == RealSum(Without(ts, t), f) + Repeated(Count(ts, t), f(t))
  {
    if ts != [] {
      WithoutSum(ts[..|ts| - 1], t, f);
      RealSumSnoc(Without(ts[..|ts| - 1], t), ts[|ts| - 1], f);
    }
  }

  /** A histogram of `ts`: distinct names, each with its number of occurrences, covering every node. */
  ghost predicate IsHistogram(vms: seq<VMType>, ts: seq<string>)
  {
    && (forall i, j :: 0 <= i < j < |vms| ==> vms[i].name != vms[j].name)
    && (forall i :: 0 <= i < |vms| ==> vms[i].count == Count(ts, vms[i].name) && vms[i].count > 0)
    && (forall t :: t in ts ==> Listed(vms, t))
  }

  ghost predicate Listed(vms: seq<VMType>, t: string)
  {
    exists i :: 0 <= i < |vms| && vms[i].name == t
  }

  /** Leaving out the last entry and its nodes leaves a histogram. */
  lemma ShorterHistogram(vms: seq<VMType>, ts: seq<string>)
    requires IsHistogram(vms, ts) && vms != []
    ensures IsHistogram(vms[..|vms| - 1], Without(ts, vms[|vms| - 1].name))
  {
    var front, last := vms[..|vms| - 1], vms[|vms| - 1];
    var rest := Without(ts, last.name);
    forall u ensures Count(rest, u) == if u == last.name then 0 else Count(ts, u) { WithoutCount(ts, last.name, u); }
    forall t | t in rest ensures Listed(front, t) {
      assert Count(rest, t) > 0;
      var i :| 0 <= i < |vms| && vms[i].name == t;
      assert front[i].name == t;
    }
  }

  lemma WeightedSnoc(vms: seq<VMType>, f: string -> real)
    requires vms != [] && vms[|vms| - 1].count >= 0
    ensures Weighted(vms, f) == Weighted(vms[..|vms| - 1], f) + Repeated(vms[|vms| - 1].count, f(vms[|vms| - 1].name))
  {
    RepeatedIsProduct(vms[|vms| - 1].count, f(vms[|vms| - 1].name));
  }

  /** Whatever is summed per node equals its count-weighted sum over the histogram. */
  lemma {:induction false} HistogramConserves(vms: seq<VMType>, ts: seq<string>, f: string -> real)
    requires IsHistogram(vms, ts)
    ensures Weighted(vms, f) == RealSum(ts, f)
  {
    if vms == [] {
      assert forall i :: 0 <= i < |ts| ==> ts[i] in ts;
    } else {
      var front, last := vms[..|vms| - 1], vms[|vms| - 1];
      ShorterHistogram(vms, ts);
      HistogramConserves(front, Without(ts, last.name), f);
      WithoutSum(ts, last.name, f);
      WeightedSnoc(vms, f);
    }
  }

  lemma {:induction false} WithoutShorter(ts: seq<string>, t: string)
    requires t in ts
    ensures |Without(ts, t)| < |ts|
  {
    var front, last := ts[..|ts| - 1], ts[|ts| - 1];
    assert ts == front + [last];
    if last == t {
      WithoutNotLonger(front, t);
    } else {
      WithoutShorter(front, t);
    }
  }

  lemma {:induction false} WithoutNotLonger(ts: seq<string>, t: string)
    ensures |Without(ts, t)| <= |ts|
  {
    if ts != [] { WithoutNotLonger(ts[..|ts| - 1], t); }
  }

  /** Whatever the types, there is a histogram of them. */
  lemma {:induction false} HistogramExists(ts: seq<string>) returns (vms: seq<VMType>)
    ensures IsHistogram(vms, ts)
    decreases |ts|
  {
    vms := [];
    if ts != [] {
      var t := ts[|ts| - 1];
      WithoutShorter(ts, t);
      var rest := HistogramExists(Without(ts, t));
      vms := OneMoreEntry(ts, t, rest);
    }
  }

  lemma OneMoreEntry(ts: seq<string>, t: string, rest: seq<VMType>) returns (vms: seq<VMType>)
    requires t in ts && IsHistogram(rest, Without(ts, t))
    ensures IsHistogram(vms, ts)
  {
    vms := rest + [VMType(t, Count(ts, t))];
    forall u ensures Count(Without(ts, t), u) == if u == t then 0 else Count(ts, u) { WithoutCount(ts, t, u); }
    forall u | u in ts ensures Listed(vms, u) {
      if u == t {
        assert vms[|rest|].name == t;
      } else {
        assert Count(Without(ts, t), u) > 0;
        var i :| 0 <= i < |rest| && rest[i].name == u;
        assert vms[i].name == u;
      }
    }
  }

  lemma {:induction false} SumOfOnes(ts: seq<string>)
    ensures RealSum(ts, _ => 1.0) == |ts| as real
  {
    if ts != [] { SumOfOnes(ts[..|ts| - 1]); }
  }

  /** The map built while walking the nodes counts exactly the known types seen so far. */
  ghost predicate Counts(vmTypes: map<string, int>, ts: seq<string>)
  {
    && (forall t :: Count(ts, t) == if t in vmTypes then vmTypes[t] else 0)
    && (forall t :: t in vmTypes ==> vmTypes[t] > 0)
  }

  function Bump(vmTypes: map<string, int>, t: string): map<string, int>
  {
    vmTypes[t := (if t in vmTypes then vmTypes[t] else 0) + 1]
  }

  lemma CountsBump(vmTypes: map<string, int>, ts: seq<string>, t: string)
    requires Counts(vmTypes, ts)
    ensures Counts(Bump(vmTypes, t), ts + [t])
  {
    SnocCount(ts, t);
  }

  method NodeEDP(specs: Specs, provider: string, labels: seq<string>) returns (edp: EDPMeasurement, ok: bool)
    ensures var ts := KnownTypes(specs, provider, labels);
            && IsHistogram(edp.vmTypes, ts)
            && edp.provisionedCPUs == RealSum(ts, t => FeatureOf(specs, provider, t).cpuCores)
            && edp.provisionedRAMGb == RealSum(ts, t => FeatureOf(specs, provider, t).memory)
            && edp.provisionedVolumes == NO_VOLUMES
            && (ok <==> |ts| == |labels|)
  {
    ghost var ts := [];
    ghost var cpu, ram := (t: string) => FeatureOf(specs, provider, t).cpuCores, (t: string) => FeatureOf(specs, provider, t).memory;
    var cpus, mem := 0.0, 0.0;
    var vmTypes: map<string, int> := map[];
    ok := true;
    for i := 0 to |labels|
      invariant ts == KnownTypes(specs, provider, labels[..i])
      invariant cpus == RealSum(ts, cpu) && mem == RealSum(ts, ram)
      invariant Counts(vmTypes, ts)
      invariant ok <==> |ts| == i
    {
      assert labels[..i + 1][..i] == labels[..i];
      var nodeType := ToLower(labels[i]);
      if !Known(specs, provider, nodeType) {
        ok := false;
        continue;
      }
      var feature := specs[provider][nodeType];
      cpus, mem := cpus + feature.cpuCores, mem + feature.memory;
      CountsBump(vmTypes, ts, nodeType);
      vmTypes := Bump(vmTypes, nodeType);
      RealSumSnoc(ts, nodeType, cpu);
      RealSumSnoc(ts, nodeType, ram);
      ts := ts + [nodeType];
    }
    assert labels[..|labels|] == labels;
    var vms := HistogramEntries(vmTypes, ts);
    edp := EDPMeasurement(vms, cpus, mem, NO_VOLUMES);
  }

  /** The second loop: one entry per key of the map, in whatever order the map yields them. */
  method HistogramEntries(vmTypes: map<string, int>, ghost ts: seq<string>) returns (vms: seq<VMType>)
    requires Counts(vmTypes, ts)
    ensures IsHistogram(vms, ts)
  {
    vms := [];
    var todo := vmTypes.Keys;
    while todo != {}
      invariant todo <= vmTypes.Keys
      invariant forall i, j :: 0 <= i < j < |vms| ==> vms[i].name != vms[j].name
      invariant forall i :: 0 <= i < |vms| ==>
                  vms[i].name in vmTypes && vms[i].name !in todo && vms[i].count == vmTypes[vms[i].name]
      invariant forall t :: t in vmTypes && t !in todo ==> Listed(vms, t)
      decreases todo
    {
      var t :| t in todo;
      ghost var before := vms;
      vms := vms + [VMType(t, vmTypes[t])];
      todo := todo - {t};
      assert vms[|before|].name == t;
      forall u | Listed(before, u) ensures Listed(vms, u) {
        var i :| 0 <= i < |before| && before[i].name == u;
        assert vms[i].name == u;
      }
    }
    assert forall t :: t in ts ==> Count(ts, t) > 0;
  }

  /** What a node measurement accounts for, stated on the measurement alone. */
  lemma NodeConservation(specs: Specs, provider: string, labels: seq<string>, vms: seq<VMType>)
    requires IsHistogram(vms, KnownTypes(specs, provider, labels))
    ensures var ts := KnownTypes(specs, provider, labels);
            && Weighted(vms, _ => 1.0) == |ts| as real
            && Weighted(vms, t => FeatureOf(specs, provider, t).cpuCores) == RealSum(ts, t => FeatureOf(specs, provider, t).cpuCores)
            && Weighted(vms, t => FeatureOf(specs, provider, t).memory) == RealSum(ts, t => FeatureOf(specs, provider, t).memory)
  {
    var ts := KnownTypes(specs, provider, labels);
    HistogramConserves(vms, ts, _ => 1.0);
    SumOfOnes(ts);
    HistogramConserves(vms, ts, t => FeatureOf(specs, provider, t).cpuCores);
    HistogramConserves(vms, ts, t => FeatureOf(specs, provider, t).memory);
  }

  /** The known types are the labels in lower case, one per node of a known type. */
  lemma {:induction false} KnownTypesCount(specs: Specs, provider: string, labels: seq<string>, t: string, p: string -> bool)
    requires forall l :: p(l) <==> ToLower(l) == t && Known(specs, provider, t)
    ensures Count(KnownTypes(specs, provider, labels), t) == CountIf(labels, p)
  {
    if labels != [] {
      var n := |labels| - 1;
      KnownTypesCount(specs, provider, labels[..n], t, p);
      SnocCount(KnownTypes(specs, provider, labels[..n]), ToLower(labels[n]));
    }
  }

  lemma {:induction false} KnownTypesSum(specs: Specs, provider: string, labels: seq<string>, f: string -> real, g: string -> real)
    requires forall l :: g(l) == if Known(specs, provider, ToLower(l)) then f(ToLower(l)) else 0.0
    ensures RealSum(KnownTypes(specs, provider, labels), f) == RealSum(labels, g)
  {
    if labels != [] {
      var n := |labels| - 1;
      KnownTypesSum(specs, provider, labels[..n], f, g);
      RealSumSnoc(KnownTypes(specs, provider, labels[..n]), ToLower(labels[n]), f);
    }
  }

  /** The number of nodes of a type, by their labels. */
  function NodesOf(labels: seq<string>, t: string): set<int>
  {
    set i | 0 <= i < |labels| && ToLower(labels[i]) == t
  }

  lemma EntryOfLabels(specs: Specs, provider: string, labels: seq<string>, vms: seq<VMType>, i: nat)
    requires IsHistogram(vms, KnownTypes(specs, provider, labels)) && i < |vms|
    ensures Known(specs, provider, vms[i].name) && vms[i].count == |NodesOf(labels, vms[i].name)|
  {
    assert Count(KnownTypes(specs, provider, labels), vms[i].name) > 0;
    CountOfLabels(specs, provider, labels, vms[i].name);
  }

  lemma LabelHasEntry(specs: Specs, provider: string, labels: seq<string>, vms: seq<VMType>, j: nat)
    requires IsHistogram(vms, KnownTypes(specs, provider, labels)) && j < |labels| && Known(specs, provider, ToLower(labels[j]))
    ensures Listed(vms, ToLower(labels[j]))
  {
    CountOfLabels(specs, provider, labels, ToLower(labels[j]));
    assert j in NodesOf(labels, ToLower(labels[j]));
  }

  /** What a node measurement says about the labels of the nodes: each entry counts the nodes of its type, every
      node of a known type is in some entry, and nothing is left out exactly when every type is known. */
  lemma MeasurementOfLabels(specs: Specs, provider: string, labels: seq<string>, vms: seq<VMType>)
    requires IsHistogram(vms, KnownTypes(specs, provider, labels))
    ensures forall i :: 0 <= i < |vms| ==> Known(specs, provider, vms[i].name) && vms[i].count == |NodesOf(labels, vms[i].name)|
    ensures forall j :: 0 <= j < |labels| && Known(specs, provider, ToLower(labels[j])) ==> Listed(vms, ToLower(labels[j]))
    ensures |KnownTypes(specs, provider, labels)| == |labels| <==>
              forall j :: 0 <= j < |labels| ==> Known(specs, provider, ToLower(labels[j]))
  {
    forall i | 0 <= i < |vms| ensures Known(specs, provider, vms[i].name) && vms[i].count == |NodesOf(labels, vms[i].name)| {
      EntryOfLabels(specs, provider, labels, vms, i);
    }
    forall j | 0 <= j < |labels| && Known(specs, provider, ToLower(labels[j])) ensures Listed(vms, ToLower(labels[j])) {
      LabelHasEntry(specs, provider, labels, vms, j);
    }
    AllKnownIff(specs, provider, labels);
  }

  lemma CountOfLabels(specs: Specs, provider: string, labels: seq<string>, t: string)
    requires Known(specs, provider, t) || t in KnownTypes(specs, provider, labels)
    ensures Known(specs, provider, t) && Count(KnownTypes(specs, provider, labels), t) == |NodesOf(labels, t)|
  {
    var p := (l: string) => ToLower(l) == t && Known(specs, provider, t);
    KnownTypesCount(specs, provider, labels, t, p);
    CountIsCardinality(labels, p);
    assert Where(labels, p) == NodesOf(labels, t);
  }

  lemma {:induction false} AllKnownIff(specs: Specs, provider: string, labels: seq<string>)
    ensures |KnownTypes(specs, provider, labels)| == |labels| <==>
              forall j :: 0 <= j < |labels| ==> Known(specs, provider, ToLower(labels[j]))
  {
    if labels != [] { AllKnownIff(specs, provider, labels[..|labels| - 1]); }
  }

  /** CPU and memory billed, node by node; a node of unknown type adds nothing. */
  lemma TotalsOfLabels(specs: Specs, provider: string, labels: seq<string>, cpus: string -> real, memory: string -> real)
    requires forall l :: cpus(l) == if provider in specs && ToLower(l) in specs[provider] then specs[provider][ToLower(l)].cpuCores else 0.0
    requires forall l :: memory(l) == if provider in specs && ToLower(l) in specs[provider] then specs[provider][ToLower(l)].memory else 0.0
    ensures var ts := KnownTypes(specs, provider, labels);
            && RealSum(ts, t => FeatureOf(specs, provider, t).cpuCores) == RealSum(labels, cpus)
            && RealSum(ts, t => FeatureOf(specs, provider, t).memory) == RealSum(labels, memory)
  {
    KnownTypesSum(specs, provider, labels, t => FeatureOf(specs, provider, t).cpuCores, cpus);
    KnownTypesSum(specs, provider, labels, t => FeatureOf(specs, provider, t).memory, memory);
  }
}
