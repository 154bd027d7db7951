/** Conversion of claims, snapshots and Redis instances to billed volume sizes. */
module Volumes {
  import opened Domain
  import opened Float64
  import opened Sums

  const GIB: real := 1073741824.0
  const MILLI_PER_GIB: int := 1073741824000
  const STORAGE_ROUNDING_FACTOR: int := 32
  const NFS_PRICE_MULTIPLIER: int := 3

  const NFS_LABELS: map<string, string> := map[
    "app.kubernetes.io/component" := "cloud-manager",
    "app.kubernetes.io/part-of" := "kyma",
    "app.kubernetes.io/managed-by" := "cloud-manager"]

  function Ceil(x: real): (n: int)
    ensures n as real - 1.0 < x <= n as real
  {
    -((-x).Floor)
  }

  // Sizes as the code computes them, every float64 operation rounded. float64(x) is the inner Round.

  function PvcSizeInGB(milli: nat): (gb: nat)
  {
    Round(Round(Round(milli as real) / GIB) / 1000.0).Floor
  }

  function VscSizeInGB(value: nat): (gb: nat)
  {
    Round(Round(value as real) / GIB).Floor
  }

  function VolumeRoundedToFactor(size: nat): (gb: nat)
  {
    Round(Ceil(Round(Round(size as real) / 32.0)) as real * 32.0).Floor
  }

  // The same sizes in integers.

  function RoundUp32(size: nat): (r: nat)
    ensures r % STORAGE_ROUNDING_FACTOR == 0
    ensures size <= r < size + STORAGE_ROUNDING_FACTOR
  {
    (size + 31) / 32 * 32
  }

  lemma DivideByGiBExact(value: nat)
    requires value <= TWO53_INT
    ensures Round(Round(value as real) / GIB) == value as real / GIB
  {
    IntegerExact(value);
    var x := value as real / GIB;
    Scale30(x);
    RoundScale(x, 30);
    Scale30(Round(x));
  }

  lemma VscSizeExact(value: nat)
    requires value <= TWO53_INT
    ensures VscSizeInGB(value) == value / 1073741824
  {
    DivideByGiBExact(value);
  }

  /** The quotient is at least one unit 1/(1000 * 2^30) away from the integers around it,
      and the rounding error is at most that unit. */
  lemma PvcSizeExact(milli: nat)
    requires milli <= TWO53_INT
    ensures PvcSizeInGB(milli) == milli / MILLI_PER_GIB
  {
    DivideByGiBExact(milli);
    var q := milli as real / GIB / 1000.0;
    var n := milli / MILLI_PER_GIB;
    QuotientGap(milli, q);
    if milli % MILLI_PER_GIB == 0 {
      IntegerExact(n);
    } else {
      RelativeError(q);
    }
  }

  lemma QuotientGap(milli: nat, q: real)
    requires milli <= TWO53_INT && q == milli as real / GIB / 1000.0
    ensures milli % MILLI_PER_GIB == 0 ==> q == (milli / MILLI_PER_GIB) as real
    ensures milli % MILLI_PER_GIB != 0 ==>
              (milli / MILLI_PER_GIB) as real + q / TWO53 <= q < (milli / MILLI_PER_GIB) as real + 1.0 - q / TWO53
  {
    var n, rem := milli / MILLI_PER_GIB, milli % MILLI_PER_GIB;
    var d := MILLI_PER_GIB as real;
    assert milli as real == n as real * d + rem as real;
    assert q * d == milli as real;
    assert (q - n as real) * d == rem as real;
    assert q / TWO53 * d == milli as real / TWO53;
    assert rem != MILLI_PER_GIB - 1 || milli < TWO53_INT;
  }

  lemma RoundedToFactorExact(size: nat)
    requires size <= TWO53_INT
    ensures VolumeRoundedToFactor(size) == RoundUp32(size)
  {
    IntegerExact(size);
    DivideBy32Exact(size as real / 32.0, size);
    CeilDivision(size);
    IntegerExact(RoundUp32(size));
  }

  lemma DivideBy32Exact(x: real, size: nat)
    requires x == size as real / 32.0 && Round(size as real) == size as real
    ensures Round(x) == x
  {
    RoundScale(x, 5);
    ScaleBy32(x);
    ScaleBy32(Round(x));
  }

  lemma ScaleBy32(x: real)
    requires x >= 0.0
    ensures Scale(x, 5) == 32.0 * x
  {
    assert Scale(x, 1) == 2.0 * x && Scale(x, 2) == 4.0 * x && Scale(x, 3) == 8.0 * x && Scale(x, 4) == 16.0 * x;
  }

  lemma CeilDivision(size: nat)
    requires size <= TWO53_INT
    ensures Ceil(size as real / 32.0) as real * 32.0 == RoundUp32(size) as real
    ensures RoundUp32(size) <= TWO53_INT
  {
    var c := (size + 31) / 32;
    assert 32 * (c - 1) < size <= 32 * c;
    assert Ceil(size as real / 32.0) == c;
  }

  // Accumulating sizes.

  function AddVolume(v: ProvisionedVolumes, size: nat): ProvisionedVolumes
  {
    ProvisionedVolumes(v.sizeGbTotal + size, v.count + 1, v.sizeGbRounded + VolumeRoundedToFactor(size))
  }

  function Tally(sizes: seq<nat>): ProvisionedVolumes
  {
    if sizes == [] then NO_VOLUMES else AddVolume(Tally(sizes[..|sizes| - 1]), sizes[|sizes| - 1])
  }

  /** Rounded sizes are never below the true total and exceed it by less than one unit of 32 per volume. */
  predicate WithinRounding(v: ProvisionedVolumes)
  {
    0 <= v.count && v.sizeGbTotal <= v.sizeGbRounded <= v.sizeGbTotal + 31 * v.count
  }

  /** The same tally in integers. */
  function ExactTally(sizes: seq<nat>): (v: ProvisionedVolumes)
    ensures v.count == |sizes| && 0 <= v.sizeGbTotal && v.sizeGbRounded % STORAGE_ROUNDING_FACTOR == 0
    ensures WithinRounding(v)
  {
    if sizes == [] then NO_VOLUMES
    else
      var v, size := ExactTally(sizes[..|sizes| - 1]), sizes[|sizes| - 1];
      ProvisionedVolumes(v.sizeGbTotal + size, v.count + 1, v.sizeGbRounded + RoundUp32(size))
  }

  lemma {:induction false} TallyExact(sizes: seq<nat>)
    requires forall i :: 0 <= i < |sizes| ==> sizes[i] <= TWO53_INT
    ensures Tally(sizes) == ExactTally(sizes)
  {
    if sizes != [] {
      TallyExact(sizes[..|sizes| - 1]);
      RoundedToFactorExact(sizes[|sizes| - 1]);
    }
  }

  /** Rounding each volume bills at least as much as rounding the total once. */
  lemma RoundedTotal(v: ProvisionedVolumes)
    requires 0 <= v.sizeGbTotal <= v.sizeGbRounded && v.sizeGbRounded % STORAGE_ROUNDING_FACTOR == 0
    ensures RoundUp32(v.sizeGbTotal) <= v.sizeGbRounded
  {
  }

  // Persistent volume claims.

  function LabelOf(labels: map<string, string>, key: string): string
  {
    if key in labels then labels[key] else ""
  }

  predicate CarriesLabels(has: map<string, string>, want: map<string, string>)
  {
    forall k :: k in want ==> LabelOf(has, k) == want[k]
  }

  method HasAllLabels(has: map<string, string>, want: map<string, string>) returns (all: bool)
    ensures all == CarriesLabels(has, want)
  {
    var todo := want.Keys;
    while todo != {}
      invariant todo <= want.Keys
      invariant forall k :: k in want && k !in todo ==> LabelOf(has, k) == want[k]
      decreases todo
    {
      var k :| k in todo;
      if LabelOf(has, k) != want[k] { return false; }
      todo := todo - {k};
    }
    return true;
  }

  /** Size billed for one claim: nothing unless bound; NFS claims count triple and prefer the size on their label. */
  function BilledSize(pvc: Pvc): Option<nat>
  {
    if !pvc.bound then None
    else if CarriesLabels(pvc.labels, NFS_LABELS) then
      var milli := if pvc.parsedLabelMilli.Some? then pvc.parsedLabelMilli.value else pvc.capacityMilli;
      Some(PvcSizeInGB(milli) * NFS_PRICE_MULTIPLIER)
    else Some(PvcSizeInGB(pvc.capacityMilli))
  }

  function BilledSizes(pvcs: seq<Pvc>): seq<nat>
  {
    if pvcs == [] then []
    else
      var front, size := BilledSizes(pvcs[..|pvcs| - 1]), BilledSize(pvcs[|pvcs| - 1]);
      if size.Some? then front + [size.value] else front
  }

  method PvcEDP(pvcs: seq<Pvc>) returns (edp: EDPMeasurement)
    ensures edp == NO_MEASUREMENT.(provisionedVolumes := Tally(BilledSizes(pvcs)))
  {
    var v := NO_VOLUMES;
    for i := 0 to |pvcs|
      invariant v == Tally(BilledSizes(pvcs[..i]))
    {
      var pvc := pvcs[i];
      assert pvcs[..i + 1][..i] == pvcs[..i];
      var nfs := HasAllLabels(pvc.labels, NFS_LABELS);
      if nfs {
        if pvc.bound {
          var current := PvcSizeInGB(pvc.capacityMilli);
          if pvc.parsedLabelMilli.Some? {
            current := PvcSizeInGB(pvc.parsedLabelMilli.value);
          }
          TallySnoc(BilledSizes(pvcs[..i]), current * NFS_PRICE_MULTIPLIER);
          v := AddVolume(v, current * NFS_PRICE_MULTIPLIER);
        }
      } else if pvc.bound {
        TallySnoc(BilledSizes(pvcs[..i]), PvcSizeInGB(pvc.capacityMilli));
        v := AddVolume(v, PvcSizeInGB(pvc.capacityMilli));
      }
    }
    assert pvcs[..|pvcs|] == pvcs;
    edp := NO_MEASUREMENT.(provisionedVolumes := v);
  }

  lemma TallySnoc(sizes: seq<nat>, size: nat)
    ensures Tally(sizes + [size]) == AddVolume(Tally(sizes), size)
  {
    assert (sizes + [size])[..|sizes|] == sizes;
  }

  predicate WithinFloatRange(pvc: Pvc)
  {
    && pvc.capacityMilli <= TWO53_INT
    && (pvc.parsedLabelMilli.Some? ==> pvc.parsedLabelMilli.value <= TWO53_INT)
  }

  /** The billed size in whole numbers: GiB rounded down, three times that for NFS, the label before the capacity. */
  lemma BilledSizeExact(pvc: Pvc)
    requires WithinFloatRange(pvc)
    ensures pvc.bound && !CarriesLabels(pvc.labels, NFS_LABELS) ==> BilledSize(pvc) == Some(pvc.capacityMilli / 1_073_741_824_000)
    ensures pvc.bound && CarriesLabels(pvc.labels, NFS_LABELS) && pvc.parsedLabelMilli.None? ==>
              BilledSize(pvc) == Some(3 * (pvc.capacityMilli / 1_073_741_824_000))
    ensures pvc.bound && CarriesLabels(pvc.labels, NFS_LABELS) && pvc.parsedLabelMilli.Some? ==>
              BilledSize(pvc) == Some(3 * (pvc.parsedLabelMilli.value / 1_073_741_824_000))
    ensures !pvc.bound ==> BilledSize(pvc) == None
  {
    PvcSizeExact(pvc.capacityMilli);
    if pvc.parsedLabelMilli.Some? { PvcSizeExact(pvc.parsedLabelMilli.value); }
  }

  const MAX_CLAIM_GB: int := 3 * 8388

  lemma {:induction false} BilledSizesSmall(pvcs: seq<Pvc>)
    requires forall i :: 0 <= i < |pvcs| ==> WithinFloatRange(pvcs[i])
    ensures |BilledSizes(pvcs)| <= |pvcs|
    ensures forall i :: 0 <= i < |BilledSizes(pvcs)| ==> BilledSizes(pvcs)[i] <= MAX_CLAIM_GB
  {
    if pvcs != [] {
      BilledSizesSmall(pvcs[..|pvcs| - 1]);
      var pvc := pvcs[|pvcs| - 1];
      PvcSizeExact(pvc.capacityMilli);
      if pvc.parsedLabelMilli.Some? { PvcSizeExact(pvc.parsedLabelMilli.value); }
    }
  }

  lemma {:induction false} TotalSmall(sizes: seq<nat>)
    requires forall i :: 0 <= i < |sizes| ==> sizes[i] <= MAX_CLAIM_GB
    ensures ExactTally(sizes).sizeGbTotal <= MAX_CLAIM_GB * |sizes|
  {
    if sizes != [] { TotalSmall(sizes[..|sizes| - 1]); }
  }

  lemma TallyBounds(sizes: seq<nat>)
    requires forall i :: 0 <= i < |sizes| ==> sizes[i] <= TWO53_INT
    ensures var v := Tally(sizes);
            && v.count == |sizes| && v.sizeGbRounded % STORAGE_ROUNDING_FACTOR == 0
            && 0 <= v.sizeGbTotal && RoundUp32(v.sizeGbTotal) <= v.sizeGbRounded
            && WithinRounding(v)
  {
    TallyExact(sizes);
    RoundedTotal(ExactTally(sizes));
  }

  lemma TallyFits(sizes: seq<nat>)
    requires |sizes| <= 0x100_0000_0000 && forall i :: 0 <= i < |sizes| ==> sizes[i] <= MAX_CLAIM_GB
    ensures Tally(sizes).sizeGbRounded < 0x8000_0000_0000_0000
  {
    TallyExact(sizes);
    TotalSmall(sizes);
  }

  /** All claims a scan can hold: bounds on the billed numbers, and room in an int64 for up to 2^40 claims. */
  lemma PvcMeasurementBounds(pvcs: seq<Pvc>)
    requires forall i :: 0 <= i < |pvcs| ==> WithinFloatRange(pvcs[i])
    ensures var v := Tally(BilledSizes(pvcs));
            && v.count == |BilledSizes(pvcs)| && v.sizeGbRounded % STORAGE_ROUNDING_FACTOR == 0
            && 0 <= v.sizeGbTotal && RoundUp32(v.sizeGbTotal) <= v.sizeGbRounded
            && WithinRounding(v)
            && (|pvcs| <= 0x100_0000_0000 ==> v.sizeGbRounded < 0x8000_0000_0000_0000)
  {
    BilledSizesSmall(pvcs);
    TallyBounds(BilledSizes(pvcs));
    if |pvcs| <= 0x100_0000_0000 { TallyFits(BilledSizes(pvcs)); }
  }

  // What claims cost, stated on the claims alone.

  /** An NFS claim carries all three labels of the cloud manager. */
  lemma NfsLabelsIff(labels: map<string, string>)
    ensures CarriesLabels(labels, NFS_LABELS) <==>
              && "app.kubernetes.io/component" in labels && labels["app.kubernetes.io/component"] == "cloud-manager"
              && "app.kubernetes.io/part-of" in labels && labels["app.kubernetes.io/part-of"] == "kyma"
              && "app.kubernetes.io/managed-by" in labels && labels["app.kubernetes.io/managed-by"] == "cloud-manager"
  {
    assert "app.kubernetes.io/component" in NFS_LABELS && "app.kubernetes.io/part-of" in NFS_LABELS
      && "app.kubernetes.io/managed-by" in NFS_LABELS;
    assert |"cloud-manager"| > 0 && |"kyma"| > 0;
  }

  function SizeOr0(size: Option<nat>): nat
  {
    if size.Some? then size.value else 0
  }

  /** What one more size, if there is one, adds to a tally. */
  lemma TallyPlus(sizes: seq<nat>, size: Option<nat>)
    requires SizeOr0(size) <= TWO53_INT
    ensures var v := Tally(sizes);
            Tally(if size.Some? then sizes + [size.value] else sizes) ==
              ProvisionedVolumes(v.sizeGbTotal + SizeOr0(size), v.count + (if size.Some? then 1 else 0), v.sizeGbRounded + RoundUp32(SizeOr0(size)))
  {
    if size.Some? {
      TallySnoc(sizes, size.value);
      RoundedToFactorExact(size.value);
    }
  }

  /** Whole GiB charged for a claim, and the same rounded up to a multiple of 32. */
  function ClaimGB(pvc: Pvc): (gb: int)
    ensures gb >= 0
  {
    if !pvc.bound then 0
    else if CarriesLabels(pvc.labels, NFS_LABELS) then
      match pvc.parsedLabelMilli
      case Some(milli) => milli / (1024 * 1024 * 1024 * 1000) * 3
      case None => pvc.capacityMilli / (1024 * 1024 * 1024 * 1000) * 3
    else pvc.capacityMilli / (1024 * 1024 * 1024 * 1000)
  }

  function ClaimRounded(pvc: Pvc): int
  {
    RoundUp32(ClaimGB(pvc))
  }

  lemma ClaimGBExact(pvc: Pvc)
    requires WithinFloatRange(pvc)
    ensures SizeOr0(BilledSize(pvc)) == ClaimGB(pvc) <= MAX_CLAIM_GB && (BilledSize(pvc).Some? <==> pvc.bound)
  {
    BilledSizeExact(pvc);
  }

  /** The claims of a scan are charged one by one: every bound claim counts once, with its size and its rounded size. */
  lemma {:induction false} PvcBillOfClaims(pvcs: seq<Pvc>)
    requires forall i :: 0 <= i < |pvcs| ==> WithinFloatRange(pvcs[i])
    ensures var v := Tally(BilledSizes(pvcs));
            && v.sizeGbTotal == IntSum(pvcs, ClaimGB) && v.sizeGbRounded == IntSum(pvcs, ClaimRounded)
            && v.count == CountIf(pvcs, (pvc: Pvc) => pvc.bound)
  {
    if pvcs != [] {
      var front, last := pvcs[..|pvcs| - 1], pvcs[|pvcs| - 1];
      PvcBillOfClaims(front);
      ClaimGBExact(last);
      TallyPlus(BilledSizes(front), BilledSize(last));
    }
  }

  lemma BoundClaims(pvcs: seq<Pvc>)
    ensures CountIf(pvcs, (pvc: Pvc) => pvc.bound) == |set i | 0 <= i < |pvcs| && pvcs[i].bound|
  {
    var p := (pvc: Pvc) => pvc.bound;
    CountIsCardinality(pvcs, p);
    assert Where(pvcs, p) == set i | 0 <= i < |pvcs| && pvcs[i].bound;
  }

  // Volume snapshots.

  predicate Ready(vsc: Vsc)
  {
    vsc.status.Some? && vsc.status.value.readyToUse == Some(true)
  }

  /** A ready snapshot whose restore size is not set cannot be converted. */
  predicate Sizeless(vsc: Vsc)
  {
    Ready(vsc) && vsc.status.value.restoreSize.None?
  }

  function SnapshotSizes(vscs: seq<Vsc>): seq<nat>
  {
    if vscs == [] then []
    else
      var front, last := SnapshotSizes(vscs[..|vscs| - 1]), vscs[|vscs| - 1];
      if Ready(last) && !Sizeless(last) then front + [VscSizeInGB(last.status.value.restoreSize.value)] else front
  }

  method VscEDP(vscs: seq<Vsc>) returns (edp: EDPMeasurement, ok: bool)
    ensures edp == NO_MEASUREMENT.(provisionedVolumes := Tally(SnapshotSizes(vscs)))
    ensures ok <==> forall i :: 0 <= i < |vscs| ==> !Sizeless(vscs[i])
  {
    var v := NO_VOLUMES;
    ok := true;
    for i := 0 to |vscs|
      invariant v == Tally(SnapshotSizes(vscs[..i]))
      invariant ok <==> forall j :: 0 <= j < i ==> !Sizeless(vscs[j])
    {
      var vsc := vscs[i];
      assert vscs[..i + 1][..i] == vscs[..i];
      if vsc.status.None? { continue; }
      if vsc.status.value.readyToUse == Some(true) {
        if vsc.status.value.restoreSize.None? {
          ok := false;
          continue;
        }
        var size := VscSizeInGB(vsc.status.value.restoreSize.value);
        TallySnoc(SnapshotSizes(vscs[..i]), size);
        v := AddVolume(v, size);
      }
    }
    assert vscs[..|vscs|] == vscs;
    edp := NO_MEASUREMENT.(provisionedVolumes := v);
  }

  predicate SnapshotWithinFloatRange(vsc: Vsc)
  {
    Ready(vsc) && !Sizeless(vsc) ==> vsc.status.value.restoreSize.value <= TWO53_INT
  }

  lemma {:induction false} SnapshotSizesSmall(vscs: seq<Vsc>)
    requires forall i :: 0 <= i < |vscs| ==> SnapshotWithinFloatRange(vscs[i])
    ensures forall i :: 0 <= i < |SnapshotSizes(vscs)| ==> SnapshotSizes(vscs)[i] <= TWO53_INT
  {
    if vscs != [] {
      SnapshotSizesSmall(vscs[..|vscs| - 1]);
      var last := vscs[|vscs| - 1];
      if Ready(last) && !Sizeless(last) { VscSizeExact(last.status.value.restoreSize.value); }
    }
  }

  lemma VscMeasurementBounds(vscs: seq<Vsc>)
    requires forall i :: 0 <= i < |vscs| ==> SnapshotWithinFloatRange(vscs[i])
    ensures var v := Tally(SnapshotSizes(vscs));
            && v.sizeGbRounded % STORAGE_ROUNDING_FACTOR == 0
            && 0 <= v.sizeGbTotal && RoundUp32(v.sizeGbTotal) <= v.sizeGbRounded
            && WithinRounding(v)
  {
    SnapshotSizesSmall(vscs);
    TallyBounds(SnapshotSizes(vscs));
  }

  // What snapshots cost, stated on the snapshots alone.

  /** The restore size of a snapshot that is ready to use, if it has one. */
  function Chargeable(vsc: Vsc): Option<nat>
  {
    match vsc.status
    case None => None
    case Some(VscStatus(ready, size)) => if ready == Some(true) then size else None
  }

  function SnapshotGB(vsc: Vsc): (gb: int)
    ensures gb >= 0
  {
    if Chargeable(vsc).Some? then Chargeable(vsc).value / (1024 * 1024 * 1024) else 0
  }

  function SnapshotRounded(vsc: Vsc): int
  {
    RoundUp32(SnapshotGB(vsc))
  }

  function SnapshotSize(vsc: Vsc): Option<nat>
  {
    if Chargeable(vsc).Some? then Some(VscSizeInGB(Chargeable(vsc).value)) else None
  }

  lemma SnapshotGBExact(vsc: Vsc)
    requires SnapshotWithinFloatRange(vsc)
    ensures SizeOr0(SnapshotSize(vsc)) == SnapshotGB(vsc) <= TWO53_INT
  {
    if Chargeable(vsc).Some? { VscSizeExact(Chargeable(vsc).value); }
  }

  lemma {:induction false} VscBillOfSnapshots(vscs: seq<Vsc>)
    requires forall i :: 0 <= i < |vscs| ==> SnapshotWithinFloatRange(vscs[i])
    ensures var v := Tally(SnapshotSizes(vscs));
            && v.sizeGbTotal == IntSum(vscs, SnapshotGB) && v.sizeGbRounded == IntSum(vscs, SnapshotRounded)
            && v.count == CountIf(vscs, (vsc: Vsc) => Chargeable(vsc).Some?)
  {
    if vscs != [] {
      var front, last := vscs[..|vscs| - 1], vscs[|vscs| - 1];
      VscBillOfSnapshots(front);
      SnapshotGBExact(last);
      TallyPlus(SnapshotSizes(front), SnapshotSize(last));
    }
  }

  lemma ChargeableSnapshots(vscs: seq<Vsc>)
    ensures CountIf(vscs, (vsc: Vsc) => Chargeable(vsc).Some?) == |set i | 0 <= i < |vscs| && Chargeable(vscs[i]).Some?|
  {
    var p := (vsc: Vsc) => Chargeable(vsc).Some?;
    CountIsCardinality(vscs, p);
    assert Where(vscs, p) == set i | 0 <= i < |vscs| && Chargeable(vscs[i]).Some?;
  }

  // Redis instances: billed by the storage price of their tier, without rounding.

  function PriceTotal(tiers: seq<string>, prices: map<string, int>): int
  {
    if tiers == [] then 0
    else PriceTotal(tiers[..|tiers| - 1], prices)
         + (var t := tiers[|tiers| - 1]; if t in prices then prices[t] else 0)
  }

  function PricedCount(tiers: seq<string>, prices: map<string, int>): (n: nat)
    ensures n <= |tiers|
    ensures n == |tiers| <==> forall t :: t in tiers ==> t in prices
  {
    if tiers == [] then 0
    else
      assert tiers == tiers[..|tiers| - 1] + [tiers[|tiers| - 1]];
      PricedCount(tiers[..|tiers| - 1], prices) + (if tiers[|tiers| - 1] in prices then 1 else 0)
  }

  method ListTiers(aws: seq<string>, azure: seq<string>, gcp: seq<string>) returns (tiers: seq<string>)
    ensures tiers == aws + azure + gcp
  {
    tiers := [];
    for i := 0 to |aws| invariant tiers == aws[..i] { tiers := tiers + [aws[i]]; }
    for i := 0 to |azure| invariant tiers == aws + azure[..i] { tiers := tiers + [azure[i]]; }
    for i := 0 to |gcp| invariant tiers == aws + azure + gcp[..i] { tiers := tiers + [gcp[i]]; }
  }

  method RedisEDP(aws: seq<string>, azure: seq<string>, gcp: seq<string>, prices: map<string, int>)
    returns (edp: EDPMeasurement, ok: bool)
    ensures var tiers := aws + azure + gcp; var total := PriceTotal(tiers, prices);
            edp == NO_MEASUREMENT.(provisionedVolumes := ProvisionedVolumes(total, PricedCount(tiers, prices), total))
    ensures WithinRounding(edp.provisionedVolumes)
    ensures ok <==> edp.provisionedVolumes.count == |aws| + |azure| + |gcp|
  {
    var tiers := ListTiers(aws, azure, gcp);
    var v := NO_VOLUMES;
    ok := true;
    for i := 0 to |tiers|
      invariant v == ProvisionedVolumes(PriceTotal(tiers[..i], prices), PricedCount(tiers[..i], prices), PriceTotal(tiers[..i], prices))
      invariant ok <==> v.count == i
    {
      assert tiers[..i + 1][..i] == tiers[..i];
      if tiers[i] !in prices {
        ok := false;
        continue;
      }
      var price := prices[tiers[i]];
      v := ProvisionedVolumes(v.sizeGbTotal + price, v.count + 1, v.sizeGbRounded + price);
    }
    assert tiers[..|tiers|] == tiers;
    edp := NO_MEASUREMENT.(provisionedVolumes := v);
  }

  /** The price of the tiers of all instances; a tier without a price adds nothing and is not counted. */
  lemma {:induction false} RedisBillOfTiers(tiers: seq<string>, prices: map<string, int>, price: string -> int)
    requires forall t :: price(t) == if t in prices then prices[t] else 0
    ensures PriceTotal(tiers, prices) == IntSum(tiers, price)
    ensures PricedCount(tiers, prices) == CountIf(tiers, (t: string) => t in prices)
  {
    if tiers != [] { RedisBillOfTiers(tiers[..|tiers| - 1], prices, price); }
  }
}
