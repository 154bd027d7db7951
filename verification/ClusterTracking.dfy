/** Whether a runtime is billed, decided by the last of its operations. */
module ClusterTracking {
  import opened Domain

  datatype OperationKind =
    | Provisioning | Deprovisioning | UpgradingKyma | UpgradingCluster | Update | Suspension | Unsuspension

  datatype SimpleOperation = SimpleOperation(kind: OperationKind, time: int, succeeded: bool)

  function NewSimpleOperation(kind: OperationKind, op: Operation): SimpleOperation
  {
    SimpleOperation(kind, op.createdAt, op.state == STATE_SUCCEEDED)
  }

  function Simplified(kind: OperationKind, ops: seq<Operation>): (r: seq<SimpleOperation>)
    ensures |r| == |ops|
    ensures forall i :: 0 <= i < |ops| ==> r[i] == NewSimpleOperation(kind, ops[i])
  {
    if ops == [] then [] else Simplified(kind, ops[..|ops| - 1]) + [NewSimpleOperation(kind, ops[|ops| - 1])]
  }

  function Single(op: Option<Operation>): seq<Operation>
  {
    if op.Some? then [op.value] else []
  }

  /** Every operation of a runtime, in the order they are collected. */
  function Collected(st: RuntimeStatus): seq<SimpleOperation>
  {
    [] + Simplified(Provisioning, Single(st.provisioning)) +
    Simplified(Deprovisioning, Single(st.deprovisioning)) +
    Simplified(UpgradingKyma, st.upgradingKyma) +
    Simplified(UpgradingCluster, st.upgradingCluster) +
    Simplified(Update, st.update) +
    Simplified(Suspension, st.suspension) +
    Simplified(Unsuspension, st.unsuspension)
  }

  predicate SortedByTime(ops: seq<SimpleOperation>)
  {
    forall i, j :: 0 <= i < j < |ops| ==> ops[i].time <= ops[j].time
  }

  /** All that an unstable sort promises. */
  ghost predicate IsSortOf(sorted: seq<SimpleOperation>, ops: seq<SimpleOperation>)
  {
    SortedByTime(sorted) && multiset(sorted) == multiset(ops)
  }

  method AppendAll(operations: seq<SimpleOperation>, kind: OperationKind, ops: seq<Operation>) returns (r: seq<SimpleOperation>)
    ensures r == operations + Simplified(kind, ops)
  {
    r := operations;
    for i := 0 to |ops|
      invariant r == operations + Simplified(kind, ops[..i])
    {
      assert ops[..i + 1][..i] == ops[..i];
      r := r + [NewSimpleOperation(kind, ops[i])];
    }
    assert ops[..|ops|] == ops;
  }

  method AppendOne(operations: seq<SimpleOperation>, kind: OperationKind, op: Option<Operation>) returns (r: seq<SimpleOperation>)
    ensures r == operations + Simplified(kind, Single(op))
  {
    r := operations;
    if op.Some? { r := r + [NewSimpleOperation(kind, op.value)]; }
  }

  lemma SortedSnoc(front: seq<SimpleOperation>, last: SimpleOperation)
    requires SortedByTime(front) && (front == [] || front[|front| - 1].time <= last.time)
    ensures SortedByTime(front + [last])
  {
  }

  function InsertByTime(sorted: seq<SimpleOperation>, op: SimpleOperation): (r: seq<SimpleOperation>)
    requires SortedByTime(sorted)
    ensures SortedByTime(r) && multiset(r) == multiset(sorted) + multiset{op}
    ensures |r| == |sorted| + 1 && (r[|sorted|] == op || (sorted != [] && r[|sorted|] == sorted[|sorted| - 1]))
  {
    if sorted == [] || sorted[|sorted| - 1].time <= op.time then
      SortedSnoc(sorted, op);
      sorted + [op]
    else
      var front, last := sorted[..|sorted| - 1], sorted[|sorted| - 1];
      assert sorted == front + [last];
      SortedSnoc(InsertByTime(front, op), last);
      InsertByTime(front, op) + [last]
  }

  /** One admissible sort; nothing below relies on how it places operations with equal times. */
  method SortByTime(ops: seq<SimpleOperation>) returns (sorted: seq<SimpleOperation>)
    ensures IsSortOf(sorted, ops)
  {
    sorted := [];
    for n := 0 to |ops|
      invariant IsSortOf(sorted, ops[..n])
    {
      assert ops[..n + 1] == ops[..n] + [ops[n]];
      sorted := InsertByTime(sorted, ops[n]);
    }
    assert ops[..|ops|] == ops;
  }

  method SortOperations(rt: Runtime) returns (operations: seq<SimpleOperation>)
    ensures IsSortOf(operations, Collected(rt.status))
  {
    var st := rt.status;
    operations := AppendOne([], Provisioning, st.provisioning);
    operations := AppendOne(operations, Deprovisioning, st.deprovisioning);
    operations := AppendAll(operations, UpgradingKyma, st.upgradingKyma);
    operations := AppendAll(operations, UpgradingCluster, st.upgradingCluster);
    operations := AppendAll(operations, Update, st.update);
    operations := AppendAll(operations, Suspension, st.suspension);
    operations := AppendAll(operations, Unsuspension, st.unsuspension);
    operations := SortByTime(operations);
  }

  function OperationVerdict(op: SimpleOperation): bool
  {
    match op.kind
    case Provisioning | Unsuspension => op.succeeded
    case Suspension | Deprovisioning => false
    case _ => true
  }

  function LastVerdict(operations: seq<SimpleOperation>): bool
  {
    operations != [] && OperationVerdict(operations[|operations| - 1])
  }

  /** `b` is a verdict the sort may lead to. */
  ghost predicate MayBeTrackable(rt: Runtime, b: bool)
  {
    exists operations :: IsSortOf(operations, Collected(rt.status)) && LastVerdict(operations) == b
  }

  method IsRuntimeTrackable(rt: Runtime) returns (b: bool)
    ensures MayBeTrackable(rt, b)
  {
    var operations := SortOperations(rt);
    b := LastVerdict(operations);
  }

  // Ties.

  /** No operation was created later. */
  predicate Latest(op: SimpleOperation, ops: seq<SimpleOperation>)
  {
    op in ops && forall other :: other in ops ==> other.time <= op.time
  }

  lemma SortEndsWithLatest(sorted: seq<SimpleOperation>, ops: seq<SimpleOperation>)
    requires IsSortOf(sorted, ops) && sorted != []
    ensures Latest(sorted[|sorted| - 1], ops)
  {
    forall op: SimpleOperation ensures op in sorted <==> op in ops {
      assert op in sorted <==> op in multiset(sorted);
      assert op in ops <==> op in multiset(ops);
    }
  }

  lemma {:induction false} SortExists(ops: seq<SimpleOperation>) returns (sorted: seq<SimpleOperation>)
    ensures IsSortOf(sorted, ops)
    decreases |ops|
  {
    sorted := [];
    if ops != [] {
      var i := FindLatest(ops);
      var rest := ops[..i] + ops[i + 1..];
      var front := SortExists(rest);
      sorted := SortWithLast(ops, i, front);
    }
  }

  lemma {:induction false} FindLatest(ops: seq<SimpleOperation>) returns (i: nat)
    requires ops != []
    ensures i < |ops| && Latest(ops[i], ops)
  {
    i := |ops| - 1;
    if |ops| > 1 {
      var front := ops[..|ops| - 1];
      assert ops == front + [ops[|ops| - 1]];
      var k := FindLatest(front);
      if ops[k].time > ops[i].time { i := k; }
    }
  }

  /** A sort of the rest followed by a latest operation is a sort of all. */
  lemma SortWithLast(ops: seq<SimpleOperation>, i: nat, front: seq<SimpleOperation>) returns (sorted: seq<SimpleOperation>)
    requires i < |ops| && Latest(ops[i], ops)
    requires IsSortOf(front, ops[..i] + ops[i + 1..])
    ensures IsSortOf(sorted, ops) && sorted == front + [ops[i]]
  {
    var rest := ops[..i] + ops[i + 1..];
    sorted := front + [ops[i]];
    assert ops == ops[..i] + [ops[i]] + ops[i + 1..];
    assert multiset(ops) == multiset(rest) + multiset{ops[i]};
    forall op | op in front ensures op.time <= ops[i].time {
      assert op in multiset(front) && op in multiset(ops);
    }
    assert forall j :: 0 <= j < |front| ==> front[j] in front;
  }

  lemma SortLength(s: seq<SimpleOperation>, ops: seq<SimpleOperation>)
    requires IsSortOf(s, ops)
    ensures |s| == |ops|
  {
    assert |multiset(s)| == |s| && |multiset(ops)| == |ops|;
  }

  lemma SortEndingWith(ops: seq<SimpleOperation>, op: SimpleOperation) returns (s: seq<SimpleOperation>)
    requires Latest(op, ops)
    ensures IsSortOf(s, ops) && s != [] && s[|s| - 1] == op
  {
    var i :| 0 <= i < |ops| && ops[i] == op;
    var front := SortExists(ops[..i] + ops[i + 1..]);
    s := SortWithLast(ops, i, front);
  }

  ghost predicate LatestVerdict(ops: seq<SimpleOperation>, b: bool)
  {
    if ops == [] then !b else exists op :: Latest(op, ops) && OperationVerdict(op) == b
  }

  /** Which verdicts are possible: exactly those of the operations that share the latest creation time. */
  lemma VerdictIffLatest(rt: Runtime, b: bool)
    ensures MayBeTrackable(rt, b) <==> LatestVerdict(Collected(rt.status), b)
  {
    var ops := Collected(rt.status);
    if MayBeTrackable(rt, b) {
      var s :| IsSortOf(s, ops) && LastVerdict(s) == b;
      SortLength(s, ops);
      if ops != [] { SortEndsWithLatest(s, ops); }
    }
    if LatestVerdict(ops, b) {
      if ops == [] {
        assert IsSortOf([], ops);
      } else {
        var op :| Latest(op, ops) && OperationVerdict(op) == b;
        var s := SortEndingWith(ops, op);
        assert LastVerdict(s) == b;
      }
    }
  }

  /** Hence ties do no harm when the latest operations agree, and only then. */
  lemma TieRobust(rt: Runtime, v: bool)
    requires Collected(rt.status) != []
    ensures (forall op :: Latest(op, Collected(rt.status)) ==> OperationVerdict(op) == v)
            <==> !MayBeTrackable(rt, !v)
  {
    VerdictIffLatest(rt, !v);
  }

  // The documented lifecycle and billing state, replayed over a whole history.

  datatype Phase = Initial | Running | Suspended | Deprovisioned

  predicate NonDestructive(op: SimpleOperation)
  {
    op.kind.UpgradingKyma? || op.kind.UpgradingCluster? || op.kind.Update?
  }

  /** Cluster lifecycle; None when the operation cannot happen in that phase. A failed provisioning or
      unsuspension leaves the phase as it was. */
  function Lifecycle(phase: Phase, op: SimpleOperation): Option<Phase>
  {
    match phase
    case Initial => if op.kind.Provisioning? then Some(if op.succeeded then Running else Initial) else None
    case Running =>
      if NonDestructive(op) then Some(Running)
      else if op.kind.Suspension? then Some(Suspended)
      else if op.kind.Deprovisioning? then Some(Deprovisioned)
      else None
    case Suspended => if op.kind.Unsuspension? then Some(if op.succeeded then Running else Suspended) else None
    case Deprovisioned => None
  }

  function PhaseAfter(ops: seq<SimpleOperation>): Option<Phase>
  {
    if ops == [] then Some(Initial)
    else
      var before := PhaseAfter(ops[..|ops| - 1]);
      if before.None? then None else Lifecycle(before.value, ops[|ops| - 1])
  }

  /** Billing state: entered by a successful provisioning or unsuspension, left by suspension or deprovisioning. */
  function Billed(billable: bool, op: SimpleOperation): bool
  {
    match op.kind
    case Provisioning | Unsuspension => billable || op.succeeded
    case Suspension | Deprovisioning => false
    case _ => billable
  }

  function Replay(ops: seq<SimpleOperation>): bool
  {
    ops != [] && Billed(Replay(ops[..|ops| - 1]), ops[|ops| - 1])
  }

  /** In a history that follows the lifecycle, the billing state is billable exactly while the cluster runs. */
  lemma {:induction false} BilledWhileRunning(ops: seq<SimpleOperation>)
    requires PhaseAfter(ops).Some?
    ensures Replay(ops) <==> PhaseAfter(ops) == Some(Running)
  {
    if ops != [] { BilledWhileRunning(ops[..|ops| - 1]); }
  }

  /** The last-operation rule refines the replay on every run of the lifecycle. */
  lemma {:induction false} LastOperationRefinesReplay(ops: seq<SimpleOperation>)
    requires PhaseAfter(ops).Some?
    ensures LastVerdict(ops) == Replay(ops)
  {
    if ops != [] {
      BilledWhileRunning(ops[..|ops| - 1]);
      BilledWhileRunning(ops);
    }
  }

  predicate Starts(op: SimpleOperation)
  {
    (op.kind.Provisioning? || op.kind.Unsuspension?) && op.succeeded
  }

  predicate Ends(op: SimpleOperation)
  {
    op.kind.Suspension? || op.kind.Deprovisioning?
  }

  /** Billing was started and not ended since. */
  ghost predicate StartedAndNotEnded(ops: seq<SimpleOperation>)
  {
    exists i :: 0 <= i < |ops| && Starts(ops[i]) && forall j :: i < j < |ops| ==> !Ends(ops[j])
  }

  lemma {:induction false} ReplayIffStartedAndNotEnded(ops: seq<SimpleOperation>)
    ensures Replay(ops) <==> StartedAndNotEnded(ops)
  {
    if ops != [] {
      var n := |ops| - 1;
      var front, last := ops[..n], ops[n];
      ReplayIffStartedAndNotEnded(front);
      if Starts(last) {
        assert StartedAndNotEnded(ops);
      }
      if !Ends(last) && StartedAndNotEnded(front) {
        var i :| 0 <= i < n && Starts(front[i]) && forall j :: i < j < n ==> !Ends(front[j]);
        assert Starts(ops[i]);
      }
      if StartedAndNotEnded(ops) && !Starts(last) {
        var i :| 0 <= i < |ops| && Starts(ops[i]) && forall j :: i < j < |ops| ==> !Ends(ops[j]);
        assert Starts(front[i]);
      }
    }
  }

  /** On arbitrary histories the rule can disagree with the replay; this is exactly when it does not. */
  ghost predicate RuleFits(ops: seq<SimpleOperation>)
  {
    ops == [] ||
    var front, last := ops[..|ops| - 1], ops[|ops| - 1];
    Starts(last) || Ends(last) || (NonDestructive(last) <==> StartedAndNotEnded(front))
  }

  lemma {:induction false} LastOperationAgreesIff(ops: seq<SimpleOperation>)
    ensures LastVerdict(ops) == Replay(ops) <==> RuleFits(ops)
  {
    if ops != [] { ReplayIffStartedAndNotEnded(ops[..|ops| - 1]); }
  }

  // From histories to runtimes: with distinct creation times there is one sort, so one verdict.

  predicate DistinctTimes(ops: seq<SimpleOperation>)
  {
    forall i, j :: 0 <= i < j < |ops| ==> ops[i].time != ops[j].time
  }

  lemma SameLast(s: seq<SimpleOperation>, t: seq<SimpleOperation>)
    requires IsSortOf(s, t) && SortedByTime(t) && DistinctTimes(s) && s != [] && t != []
    ensures s[|s| - 1] == t[|t| - 1]
  {
    SortEndsWithLatest(s, t);
    SortEndsWithLatest(t, s);
  }

  lemma DropSameLast(s: seq<SimpleOperation>, t: seq<SimpleOperation>, last: SimpleOperation)
    requires multiset(s + [last]) == multiset(t + [last])
    ensures multiset(s) == multiset(t)
  {
    assert multiset(s) == multiset(s + [last]) - multiset{last};
    assert multiset(t) == multiset(t + [last]) - multiset{last};
  }

  lemma {:induction false} UniqueSort(s: seq<SimpleOperation>, t: seq<SimpleOperation>)
    requires IsSortOf(s, t) && SortedByTime(t) && DistinctTimes(s)
    ensures s == t
  {
    SortLength(s, t);
    if s != [] {
      var n := |s| - 1;
      SameLast(s, t);
      assert s == s[..n] + [s[n]] && t == t[..n] + [s[n]];
      DropSameLast(s[..n], t[..n], s[n]);
      UniqueSort(s[..n], t[..n]);
    }
  }

  /** With distinct creation times the verdict is that of the last operation of the one sorted history. */
  lemma OneVerdict(rt: Runtime, history: seq<SimpleOperation>, b: bool)
    requires IsSortOf(history, Collected(rt.status)) && DistinctTimes(history)
    ensures MayBeTrackable(rt, b) <==> b == LastVerdict(history)
  {
    forall s | IsSortOf(s, Collected(rt.status)) ensures s == history { UniqueSort(history, s); }
  }

  /** Billing of a runtime whose operations follow the documented lifecycle. */
  lemma TrackableRefinesLifecycle(rt: Runtime, history: seq<SimpleOperation>, b: bool)
    requires IsSortOf(history, Collected(rt.status)) && DistinctTimes(history) && PhaseAfter(history).Some?
    ensures MayBeTrackable(rt, b) <==> b == Replay(history)
  {
    LastOperationRefinesReplay(history);
    OneVerdict(rt, history, b);
  }

  /** Billing of any runtime with distinct creation times: it gets the verdict of the replay exactly when the rule fits. */
  lemma TrackableAgreesIff(rt: Runtime, history: seq<SimpleOperation>)
    requires IsSortOf(history, Collected(rt.status)) && DistinctTimes(history)
    ensures (forall b :: MayBeTrackable(rt, b) <==> b == Replay(history)) <==> RuleFits(history)
  {
    LastOperationAgreesIff(history);
    forall b ensures MayBeTrackable(rt, b) <==> b == LastVerdict(history) { OneVerdict(rt, history, b); }
    assert MayBeTrackable(rt, LastVerdict(history));
  }

  lemma CollectedTwo(st: RuntimeStatus, failed: Operation, update: Operation)
    requires st == RuntimeStatus(Some(failed), None, [], [], [update], [], [])
    ensures Collected(st) == [NewSimpleOperation(Provisioning, failed), NewSimpleOperation(Update, update)]
  {
  }

  lemma FailedThenUpdated(first: SimpleOperation, last: SimpleOperation)
    requires first.kind.Provisioning? && !first.succeeded && last.kind.Update? && first.time < last.time
    ensures SortedByTime([first, last]) && DistinctTimes([first, last]) && LastVerdict([first, last]) && !Replay([first, last])
  {
    ReplayIffStartedAndNotEnded([first, last]);
  }

  /** A runtime that is billed although its provisioning failed, because it was updated afterwards. */
  lemma LastOperationCanDisagree(rt: Runtime, failed: Operation, update: Operation, history: seq<SimpleOperation>)
    requires failed.state != STATE_SUCCEEDED && failed.createdAt < update.createdAt
    requires rt.status == RuntimeStatus(Some(failed), None, [], [], [update], [], [])
    requires IsSortOf(history, Collected(rt.status))
    ensures MayBeTrackable(rt, true) && !MayBeTrackable(rt, false) && !Replay(history)
  {
    CollectedTwo(rt.status, failed, update);
    FailedThenUpdated(NewSimpleOperation(Provisioning, failed), NewSimpleOperation(Update, update));
    UniqueSort(Collected(rt.status), history);
    OneVerdict(rt, history, true);
    OneVerdict(rt, history, false);
  }
}
