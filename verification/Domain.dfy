/** Entities shared by every part of the collector: what KEB reports, what the cache holds, what is billed. */
module Domain {

  datatype Option<+T> = None | Some(value: T)

  /** An operation as KEB reports it; `createdAt` is an instant on one time line. */
  datatype Operation = Operation(createdAt: int, state: string)

  const STATE_SUCCEEDED: string := "succeeded"

  /** The operations of a runtime. A nil list in the wire format and an empty one are the same here. */
  datatype RuntimeStatus = RuntimeStatus(
    provisioning: Option<Operation>,
    deprovisioning: Option<Operation>,
    upgradingKyma: seq<Operation>,
    upgradingCluster: seq<Operation>,
    update: seq<Operation>,
    suspension: seq<Operation>,
    unsuspension: seq<Operation>)

  datatype Runtime = Runtime(
    subAccountID: string,
    runtimeID: string,
    instanceID: string,
    globalAccountID: string,
    shootName: string,
    provider: string,
    status: RuntimeStatus)

  /** Identity of a cluster, as handed to the scanners and the billing backend. */
  datatype Info = Info(
    instanceID: string,
    runtimeID: string,
    subAccountID: string,
    globalAccountID: string,
    shootName: string,
    providerType: string)

  datatype VMType = VMType(name: string, count: int)

  datatype ProvisionedVolumes = ProvisionedVolumes(sizeGbTotal: int, count: int, sizeGbRounded: int)

  datatype EDPMeasurement = EDPMeasurement(
    vmTypes: seq<VMType>,
    provisionedCPUs: real,
    provisionedRAMGb: real,
    provisionedVolumes: ProvisionedVolumes)

  const NO_VOLUMES := ProvisionedVolumes(0, 0, 0)
  const NO_MEASUREMENT := EDPMeasurement([], 0.0, 0.0, NO_VOLUMES)

  /** A persistent volume claim: labels, phase, capacity in milli-units, and the capacity label if it parses. */
  datatype Pvc = Pvc(labels: map<string, string>, bound: bool, capacityMilli: nat, parsedLabelMilli: Option<nat>)

  /** A volume snapshot content; `status` is absent when the cluster reports none. */
  datatype Vsc = Vsc(status: Option<VscStatus>)
  datatype VscStatus = VscStatus(readyToUse: Option<bool>, restoreSize: Option<nat>)

  /** What one scanner brought back from a cluster. */
  datatype ScanData =
    | NodeScan(provider: string, instanceTypes: seq<string>)
    | PvcScan(pvcs: seq<Pvc>)
    | VscScan(vscs: seq<Vsc>)
    | RedisScan(aws: seq<string>, azure: seq<string>, gcp: seq<string>)

  /** A scan with its provenance: the collector pass that took it and the identity that pass ran under. */
  datatype Scan = Scan(pass: nat, info: Info, data: ScanData)

  type ScannerID = string
  type ScanMap = map<ScannerID, Scan>

  datatype Record = Record(info: Info, scanMap: ScanMap)

  /** Go's strings.ToLower on ASCII text: the letters A to Z move by the distance to a, all else stays. */
  function ToLower(s: string): (r: string)
    ensures |r| == |s|
    ensures forall i :: 0 <= i < |s| ==> r[i] as int == s[i] as int + if 'A' <= s[i] <= 'Z' then 32 else 0
  {
    if s == [] then []
    else [if 'A' <= s[0] <= 'Z' then s[0] + ' ' else s[0]] + ToLower(s[1..])
  }

  /** The identity a poll derives from a runtime. */
  function InfoOf(rt: Runtime): (info: Info)
  {
    Info(rt.instanceID, rt.runtimeID, rt.subAccountID, rt.globalAccountID, rt.shootName, ToLower(rt.provider))
  }

  /** Pairwise different. */
  predicate Distinct<T(==)>(s: seq<T>)
  {
    forall i, j :: 0 <= i < j < |s| ==> s[i] != s[j]
  }

  /** Taking one occurrence out of a sequence takes it out of the bag. */
  lemma RemoveOne<T>(s: seq<T>, i: nat)
    requires i < |s|
    ensures multiset(s) == multiset(s[..i] + s[i + 1..]) + multiset{s[i]}
  {
    assert s == s[..i] + [s[i]] + s[i + 1..];
  }
}
