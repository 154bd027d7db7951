/** The history and the billing verdict of a runtime, stated on the fields of its status alone. */
module StatusVerdict {
  import opened Domain
  import opened Sums
  import opened ClusterTracking

  /** How many of the operations were created at that time and succeeded, or did not. */
  function Created(ops: seq<Operation>, time: int, succeeded: bool): nat
  {
    CountIf(ops, (op: Operation) => op.createdAt == time && (op.state == "succeeded") == succeeded)
  }

  lemma {:induction false} SimplifiedCount(kind: OperationKind, ops: seq<Operation>, x: SimpleOperation)
    ensures multiset(Simplified(kind, ops))[x] == if x.kind == kind then Created(ops, x.time, x.succeeded) else 0
  {
    if ops != [] { SimplifiedCount(kind, ops[..|ops| - 1], x); }
  }

  lemma SingleCreated(op: Option<Operation>, time: int, succeeded: bool)
    ensures Created(Single(op), time, succeeded) == if Is(op, time, succeeded) then 1 else 0
  {
    if op.Some? {
      var p := (op: Operation) => op.createdAt == time && (op.state == "succeeded") == succeeded;
      CountOne(op.value, p);
    }
  }

  function FieldOf(st: RuntimeStatus, kind: OperationKind): seq<Operation>
  {
    match kind
    case Provisioning => Single(st.provisioning)
    case Deprovisioning => Single(st.deprovisioning)
    case UpgradingKyma => st.upgradingKyma
    case UpgradingCluster => st.upgradingCluster
    case Update => st.update
    case Suspension => st.suspension
    case Unsuspension => st.unsuspension
  }

  lemma CollectedCount(st: RuntimeStatus, x: SimpleOperation)
    ensures multiset(Collected(st))[x] == Created(FieldOf(st, x.kind), x.time, x.succeeded)
  {
    SimplifiedCount(Provisioning, Single(st.provisioning), x);
    SimplifiedCount(Deprovisioning, Single(st.deprovisioning), x);
    SimplifiedCount(UpgradingKyma, st.upgradingKyma, x);
    SimplifiedCount(UpgradingCluster, st.upgradingCluster, x);
    SimplifiedCount(Update, st.update, x);
    SimplifiedCount(Suspension, st.suspension, x);
    SimplifiedCount(Unsuspension, st.unsuspension, x);
  }

  lemma HistoryCount(st: RuntimeStatus, history: seq<SimpleOperation>, x: SimpleOperation)
    requires IsSortOf(history, Collected(st))
    ensures multiset(history)[x] == Created(FieldOf(st, x.kind), x.time, x.succeeded)
  {
    CollectedCount(st, x);
  }

  predicate Is(op: Option<Operation>, t: int, b: bool)
  {
    op.Some? && op.value.createdAt == t && (op.value.state == "succeeded") == b
  }

  /** A sorted history holds every operation exactly as often as the field of its kind lists it. */
  lemma HistoryOfStatus(st: RuntimeStatus, history: seq<SimpleOperation>, x: SimpleOperation)
    requires IsSortOf(history, Collected(st))
    ensures multiset(history)[x] ==
              match x.kind
              case Provisioning => if Is(st.provisioning, x.time, x.succeeded) then 1 else 0
              case Deprovisioning => if Is(st.deprovisioning, x.time, x.succeeded) then 1 else 0
              case UpgradingKyma => Created(st.upgradingKyma, x.time, x.succeeded)
              case UpgradingCluster => Created(st.upgradingCluster, x.time, x.succeeded)
              case Update => Created(st.update, x.time, x.succeeded)
              case Suspension => Created(st.suspension, x.time, x.succeeded)
              case Unsuspension => Created(st.unsuspension, x.time, x.succeeded)
  {
    HistoryCount(st, history, x);
    SingleCreated(st.provisioning, x.time, x.succeeded);
    SingleCreated(st.deprovisioning, x.time, x.succeeded);
  }

  // The verdict.

  ghost predicate CreatedBy(ops: seq<Operation>, t: int)
  {
    forall op :: op in ops ==> op.createdAt <= t
  }

  /** No operation of the status was created after t. */
  ghost predicate NoneLater(st: RuntimeStatus, t: int)
  {
    && (st.provisioning.Some? ==> st.provisioning.value.createdAt <= t)
    && (st.deprovisioning.Some? ==> st.deprovisioning.value.createdAt <= t)
    && CreatedBy(st.upgradingKyma, t) && CreatedBy(st.upgradingCluster, t) && CreatedBy(st.update, t)
    && CreatedBy(st.suspension, t) && CreatedBy(st.unsuspension, t)
  }

  /** An operation created at t speaks for billing: a succeeded provisioning or unsuspension, an update or upgrade. */
  ghost predicate ForBilling(st: RuntimeStatus, t: int)
  {
    || (st.provisioning.Some? && st.provisioning.value.createdAt == t && st.provisioning.value.state == "succeeded")
    || (exists op :: op in st.unsuspension && op.createdAt == t && op.state == "succeeded")
    || (exists op :: op in st.update && op.createdAt == t)
    || (exists op :: op in st.upgradingKyma && op.createdAt == t)
    || (exists op :: op in st.upgradingCluster && op.createdAt == t)
  }

  /** An operation created at t speaks against it: a deprovisioning or suspension, or a provisioning or
      unsuspension that has not succeeded. */
  ghost predicate AgainstBilling(st: RuntimeStatus, t: int)
  {
    || (st.deprovisioning.Some? && st.deprovisioning.value.createdAt == t)
    || (exists op :: op in st.suspension && op.createdAt == t)
    || (st.provisioning.Some? && st.provisioning.value.createdAt == t && st.provisioning.value.state != "succeeded")
    || (exists op :: op in st.unsuspension && op.createdAt == t && op.state != "succeeded")
  }

  ghost predicate NoOperations(st: RuntimeStatus)
  {
    && st.provisioning.None? && st.deprovisioning.None? && st.upgradingKyma == [] && st.upgradingCluster == []
    && st.update == [] && st.suspension == [] && st.unsuspension == []
  }

  /** The operation x stands for one of the field of its kind. */
  ghost predicate Has(st: RuntimeStatus, x: SimpleOperation)
  {
    exists op :: op in FieldOf(st, x.kind) && op.createdAt == x.time && (op.state == "succeeded") == x.succeeded
  }

  lemma {:induction false} CreatedPositive(ops: seq<Operation>, t: int, b: bool)
    ensures Created(ops, t, b) > 0 <==> exists op :: op in ops && op.createdAt == t && (op.state == "succeeded") == b
  {
    if ops != [] {
      CreatedPositive(ops[..|ops| - 1], t, b);
      assert ops == ops[..|ops| - 1] + [ops[|ops| - 1]];
    }
  }

  lemma CollectedHas(st: RuntimeStatus, x: SimpleOperation)
    ensures x in Collected(st) <==> Has(st, x)
  {
    CollectedCount(st, x);
    CreatedPositive(FieldOf(st, x.kind), x.time, x.succeeded);
    assert x in Collected(st) <==> x in multiset(Collected(st));
  }

  lemma FieldCollected(st: RuntimeStatus, kind: OperationKind, op: Operation)
    requires op in FieldOf(st, kind)
    ensures NewSimpleOperation(kind, op) in Collected(st)
  {
    var x := NewSimpleOperation(kind, op);
    assert Has(st, x);
    CollectedHas(st, x);
  }

  ghost predicate NoneLaterByKind(st: RuntimeStatus, t: int)
  {
    forall kind :: CreatedBy(FieldOf(st, kind), t)
  }

  lemma NoneLaterIff(st: RuntimeStatus, t: int)
    ensures NoneLater(st, t) <==> NoneLaterByKind(st, t)
  {
    assert NoneLaterByKind(st, t) ==>
      CreatedBy(FieldOf(st, Provisioning), t) && CreatedBy(FieldOf(st, Deprovisioning), t) && CreatedBy(FieldOf(st, UpgradingKyma), t)
      && CreatedBy(FieldOf(st, UpgradingCluster), t) && CreatedBy(FieldOf(st, Update), t) && CreatedBy(FieldOf(st, Suspension), t)
      && CreatedBy(FieldOf(st, Unsuspension), t);
    assert st.provisioning.Some? ==> st.provisioning.value in FieldOf(st, Provisioning);
    assert st.deprovisioning.Some? ==> st.deprovisioning.value in FieldOf(st, Deprovisioning);
  }

  lemma LatestIff(st: RuntimeStatus, x: SimpleOperation)
    requires x in Collected(st)
    ensures Latest(x, Collected(st)) <==> NoneLater(st, x.time)
  {
    NoneLaterIff(st, x.time);
    if Latest(x, Collected(st)) {
      forall kind, op | op in FieldOf(st, kind) ensures op.createdAt <= x.time { FieldCollected(st, kind, op); }
    } else {
      var y :| y in Collected(st) && y.time > x.time;
      CollectedHas(st, y);
      assert !CreatedBy(FieldOf(st, y.kind), x.time);
    }
  }

  /** Operations at time t, by the verdict they give. */
  lemma SpeaksIff(st: RuntimeStatus, t: int, b: bool)
    ensures (exists x :: x in Collected(st) && x.time == t && OperationVerdict(x) == b)
            <==> if b then ForBilling(st, t) else AgainstBilling(st, t)
  {
    if x :| x in Collected(st) && x.time == t && OperationVerdict(x) == b { CollectedHas(st, x); }
    if (if b then ForBilling(st, t) else AgainstBilling(st, t)) {
      var kind, op := Speaker(st, t, b);
      FieldCollected(st, kind, op);
      assert OperationVerdict(NewSimpleOperation(kind, op)) == b;
    }
  }

  lemma Speaker(st: RuntimeStatus, t: int, b: bool) returns (kind: OperationKind, op: Operation)
    requires if b then ForBilling(st, t) else AgainstBilling(st, t)
    ensures op in FieldOf(st, kind) && op.createdAt == t && OperationVerdict(NewSimpleOperation(kind, op)) == b
  {
    if b {
      if st.provisioning.Some? && st.provisioning.value.createdAt == t && st.provisioning.value.state == "succeeded" {
        kind, op := Provisioning, st.provisioning.value;
      } else if exists o :: o in st.unsuspension && o.createdAt == t && o.state == "succeeded" {
        kind := Unsuspension;
        op :| op in st.unsuspension && op.createdAt == t && op.state == "succeeded";
      } else if exists o :: o in st.update && o.createdAt == t {
        kind := Update;
        op :| op in st.update && op.createdAt == t;
      } else if exists o :: o in st.upgradingKyma && o.createdAt == t {
        kind := UpgradingKyma;
        op :| op in st.upgradingKyma && op.createdAt == t;
      } else {
        kind := UpgradingCluster;
        op :| op in st.upgradingCluster && op.createdAt == t;
      }
    } else {
      if st.deprovisioning.Some? && st.deprovisioning.value.createdAt == t {
        kind, op := Deprovisioning, st.deprovisioning.value;
      } else if exists o :: o in st.suspension && o.createdAt == t {
        kind := Suspension;
        op :| op in st.suspension && op.createdAt == t;
      } else if st.provisioning.Some? && st.provisioning.value.createdAt == t && st.provisioning.value.state != "succeeded" {
        kind, op := Provisioning, st.provisioning.value;
      } else {
        kind := Unsuspension;
        op :| op in st.unsuspension && op.createdAt == t && op.state != "succeeded";
      }
    }
  }

  lemma EmptyIff(st: RuntimeStatus)
    ensures Collected(st) == [] <==> NoOperations(st)
  {
  }

  /** A runtime may be found trackable exactly when an operation that speaks for billing is among its latest, and
      may be found not trackable exactly when one that speaks against it is, or there is no operation at all. */
  lemma VerdictOfStatus(rt: Runtime)
    ensures MayBeTrackable(rt, true) <==> exists t :: NoneLater(rt.status, t) && ForBilling(rt.status, t)
    ensures MayBeTrackable(rt, false) <==>
              NoOperations(rt.status) || exists t :: NoneLater(rt.status, t) && AgainstBilling(rt.status, t)
  {
    EmptyIff(rt.status);
    LatestVerdictIff(rt.status, true);
    LatestVerdictIff(rt.status, false);
    VerdictIffLatest(rt, true);
    VerdictIffLatest(rt, false);
    forall t ensures ForBilling(rt.status, t) ==> !NoOperations(rt.status) {}
    forall t ensures AgainstBilling(rt.status, t) ==> !NoOperations(rt.status) {}
  }

  lemma LatestVerdictIff(st: RuntimeStatus, b: bool)
    ensures (exists x :: Latest(x, Collected(st)) && OperationVerdict(x) == b) <==>
              exists t :: NoneLater(st, t) && if b then ForBilling(st, t) else AgainstBilling(st, t)
  {
    if x :| Latest(x, Collected(st)) && OperationVerdict(x) == b {
      LatestIff(st, x);
      SpeaksIff(st, x.time, b);
    }
    if t :| NoneLater(st, t) && if b then ForBilling(st, t) else AgainstBilling(st, t) {
      SpeaksIff(st, t, b);
      var x :| x in Collected(st) && x.time == t && OperationVerdict(x) == b;
      LatestIff(st, x);
    }
  }

  /** When all the latest operations speak against billing the runtime is not trackable, and when all speak for it
      the runtime is. */
  lemma LatestDecides(rt: Runtime, t: int)
    requires NoneLater(rt.status, t)
    ensures AgainstBilling(rt.status, t) && !ForBilling(rt.status, t) ==> !MayBeTrackable(rt, true)
    ensures ForBilling(rt.status, t) && !AgainstBilling(rt.status, t) ==> !MayBeTrackable(rt, false)
  {
    VerdictOfStatus(rt);
    if AgainstBilling(rt.status, t) && !ForBilling(rt.status, t) && MayBeTrackable(rt, true) {
      var u :| NoneLater(rt.status, u) && ForBilling(rt.status, u);
      SameLatest(rt.status, t, u);
      assert false;
    }
    if ForBilling(rt.status, t) && !AgainstBilling(rt.status, t) && MayBeTrackable(rt, false) {
      var u :| NoneLater(rt.status, u) && AgainstBilling(rt.status, u);
      SameLatest(rt.status, t, u);
      assert false;
    }
  }

  lemma SameLatest(st: RuntimeStatus, t: int, u: int)
    requires NoneLater(st, t) && NoneLater(st, u)
    requires (ForBilling(st, t) || AgainstBilling(st, t)) && (ForBilling(st, u) || AgainstBilling(st, u))
    ensures t == u
  {
  }
}
