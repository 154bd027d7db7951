/** Runs that show the statements about histories are not vacuous: what they allow does happen. */
module Examples {
  import opened Domain
  import opened ClusterTracking
  import opened Process
  import opened Protocol
  import opened Safety
  import opened Refinement
  import opened Overlap
  import opened Liveness
  import Q = WorkQueue
  import C = Collector

  const SCANNERS: seq<ScannerID> := ["node", "pvc"]

  /** Two scanners whose scans always convert, nothing filtered, no delay before a key is due again. */
  const CFG := Config(SCANNERS, _ => Some(NO_MEASUREMENT), {}, 0)

  function Due(k: string): Q.Queue
  {
    Q.Queue([k], {k}, {}, {})
  }

  /** One idle worker, and one cached key that is due. */
  ghost predicate OneKey(cfg: Config, s: State, k: string, r: Record)
  {
    && Reachable(cfg, s) && |s.workers| == 1 && s.workers[0].pc.Idle? && s.poller.Sleeping?
    && s.cache == map[k := RecordItem(r)] && s.queue == Due(k) && r.info.subAccountID == k
  }

  lemma PollOfOne(rt: Runtime)
    requires rt.subAccountID != ""
    ensures Reconcile({}, PollState(map[], Q.EMPTY), [Decided(rt, true)])
         == PollState(map[rt.subAccountID := RecordItem(NewRecord(rt))], Due(rt.subAccountID))
  {
    var st, decided := PollState(map[], Q.EMPTY), [Decided(rt, true)];
    assert ReconcileTo({}, st, decided, 1) == ReconcileOne({}, ReconcileTo({}, st, decided, 0), decided[0]);
    assert decided[0].rt.subAccountID in Reported(decided, 1);
  }

  lemma FirstPoll(rt: Runtime) returns (s: State)
    requires rt.subAccountID != "" && MayBeTrackable(rt, true)
    ensures OneKey(CFG, s, rt.subAccountID, NewRecord(rt)) && s.passes == 0 && s.bills == []
  {
    var page, decided := [rt], [Decided(rt, true)];
    var run := PollIsRun(CFG, Init(1), page, decided);
    PollOfOne(rt);
    s := WithView(Init(1), Reconcile({}, Viewed(Init(1)), decided)).(polls := HistoryAt(Init(1), page, decided, 1));
    assert Leads(CFG, Init(1), run, s);
  }

  lemma DueAgain(k: string)
    ensures Q.Done(Q.AddAfter(Q.Get(Due(k)), k, 0), k) == Due(k)
    ensures Q.AddAfter(Q.Done(Q.Get(Due(k)), k), k, 0) == Due(k)
  {
  }

  function Pass(cfg: Config, r: Record, outcomes: seq<Option<Scan>>): C.Outcome
    requires |outcomes| == |cfg.scanners|
  {
    C.Collect(cfg.scanners, cfg.edp, outcomes, true, r.scanMap)
  }

  lemma Running(cfg: Config, s: State)
    requires Reachable(cfg, s)
    ensures !s.crashed
  {
    ReachableInv(cfg, s);
  }

  lemma WrittenBack(cache: Cache, k: string, r: Record, next: Record)
    requires cache == map[k := RecordItem(r)]
    ensures cache[k := RecordItem(next)] == map[k := RecordItem(next)]
  {
  }

  /** What a turn leaves, for the one key there is. */
  lemma TurnOnKey(cfg: Config, s: State, t: State, k: string, r: Record, outcomes: seq<Option<Scan>>)
    requires |outcomes| == |cfg.scanners| && cfg.interval == 0
    requires s.cache == map[k := RecordItem(r)] && s.queue == Due(k) && r.info.subAccountID == k
    requires TurnTaken(cfg, s, t, k, Scrape(outcomes, true)) && Pass(cfg, r, outcomes).billed
    ensures var o := Pass(cfg, r, outcomes);
            && t.cache == map[k := RecordItem(if o.ok then r.(scanMap := o.scans) else r)] && t.queue == Due(k)
            && t.passes == s.passes + 1
            && t.bills == s.bills + [Bill(r.info, s.passes, o.scans, r.scanMap, true, o.ok)]
  {
    DueAgain(k);
    WrittenBack(s.cache, k, r, r.(scanMap := Pass(cfg, r, outcomes).scans));
  }

  /** A turn of the worker on that key. */
  lemma OneTurn(cfg: Config, s: State, k: string, r: Record, outcomes: seq<Option<Scan>>) returns (t: State)
    requires OneKey(cfg, s, k, r) && cfg.interval == 0
    requires |outcomes| == |cfg.scanners| && TakenIn(outcomes, s.passes, r.info) && Pass(cfg, r, outcomes).billed
    ensures var o := Pass(cfg, r, outcomes);
            && OneKey(cfg, t, k, if o.ok then r.(scanMap := o.scans) else r) && t.passes == s.passes + 1
            && t.bills == s.bills + [Bill(r.info, s.passes, o.scans, r.scanMap, true, o.ok)]
  {
    Running(cfg, s);
    var run;
    run, t := TurnIsRun(cfg, s, 0, Scrape(outcomes, true));
    ReachableOn(cfg, s, run, t);
    TurnOnKey(cfg, s, t, k, r, outcomes);
  }

  function ScanOf(pass: nat, info: Info): Option<Scan>
  {
    Some(Scan(pass, info, PvcScan([])))
  }

  lemma PassOfTwo(r: Record, node: Option<Scan>, pvc: Option<Scan>)
    requires node.Some? || pvc.Some?
    ensures var o := Pass(CFG, r, [node, pvc]);
            && o.billed && (o.ok <==> node.Some? && pvc.Some?)
            && (node.Some? || "node" in r.scanMap ==>
                  "node" in o.scans && o.scans["node"] == if node.Some? then node.value else r.scanMap["node"])
  {
    var outcomes := [node, pvc];
    assert SCANNERS[0] == "node" && SCANNERS[1] == "pvc" && outcomes[0] == node && outcomes[1] == pvc;
    assert Distinct(SCANNERS) by { assert |"node"| != |"pvc"|; }
    C.FallbackRule(SCANNERS, CFG.edp, outcomes, true, r.scanMap, 0);
    C.FallbackRule(SCANNERS, CFG.edp, outcomes, true, r.scanMap, 1);
  }

  /** After the first scrape. */
  lemma ScrapedOnce(rt: Runtime) returns (s: State, r: Record)
    requires rt.subAccountID != "" && MayBeTrackable(rt, true)
    ensures OneKey(CFG, s, rt.subAccountID, r) && r.info == InfoOf(rt) && s.passes == 1
    ensures |s.bills| == 1 && s.bills[0].info == r.info && "node" in r.scanMap && r.scanMap["node"].pass == 0
  {
    var scans := [ScanOf(0, InfoOf(rt)), ScanOf(0, InfoOf(rt))];
    s := FirstPoll(rt);
    r := NewRecord(rt);
    PassOfTwo(r, scans[0], scans[1]);
    s := OneTurn(CFG, s, rt.subAccountID, r, scans);
    r := r.(scanMap := Pass(CFG, r, scans).scans);
  }

  /** Scans of pass 0 are stored; pass 1 bills a new node scan but fails for claims, so nothing is stored; in
      pass 2 the node scan fails, and the bill is back to the node scan of pass 0. */
  lemma BillGoesBack(rt: Runtime) returns (s: State)
    requires rt.subAccountID != "" && MayBeTrackable(rt, true)
    ensures Reachable(CFG, s) && |s.bills| == 3 && s.bills[1].info == s.bills[2].info == InfoOf(rt)
    ensures "node" in s.bills[1].scans && "node" in s.bills[2].scans
    ensures s.bills[2].scans["node"].pass == 0 < s.bills[1].scans["node"].pass == 1
  {
    var r;
    s, r := ScrapedOnce(rt);
    PassOfTwo(r, ScanOf(1, r.info), None);
    s := OneTurn(CFG, s, rt.subAccountID, r, [ScanOf(1, r.info), None]);
    PassOfTwo(r, None, ScanOf(2, r.info));
    s := OneTurn(CFG, s, rt.subAccountID, r, [None, ScanOf(2, r.info)]);
  }

  lemma Extend(cfg: Config, s: State, run: seq<Action>, t: State, a: Action) returns (longer: seq<Action>, u: State)
    requires Leads(cfg, s, run, t) && Enabled(cfg, t, a)
    ensures u == Apply(cfg, t, a) && Leads(cfg, s, longer, u)
  {
    LeadsStep(cfg, s, run, t, a);
    longer, u := run + [a], Apply(cfg, t, a);
  }

  /** A worker has scraped its key and not yet written back. */
  lemma CollectedOnce(s: State, k: string, r: Record) returns (run: seq<Action>, t: State)
    requires OneKey(CFG, s, k, r)
    ensures Leads(CFG, s, run, t) && !t.crashed && t.poller.Sleeping?
    ensures |t.workers| == 1 && t.workers[0].pc.Collected? && t.workers[0].pc.record.info == r.info
  {
    Running(CFG, s);
    var scan := ScanOf(s.passes, r.info);
    PassOfTwo(r, scan, scan);
    run, t := Extend(CFG, s, [], s, Get(0));
    run, t := Extend(CFG, s, run, t, ReadCache(0));
    run, t := Extend(CFG, s, run, t, Collect(0, [scan, scan], true));
  }

  /** The next poll does not list the key; a worker that collected before brings it back. */
  lemma KeyComesBack(rt: Runtime) returns (s: State)
    requires rt.subAccountID != "" && MayBeTrackable(rt, true)
    ensures Reachable(CFG, s) && s.poller.Sleeping? && Unwanted(CFG, s.polls, rt.subAccountID) && rt.subAccountID in s.cache
  {
    var first := FirstPoll(rt);
    var run, t := CollectedOnce(first, rt.subAccountID, NewRecord(rt));
    ReachableOn(CFG, first, run, t);
    run := PollIsRun(CFG, t, [], []);
    var u := WithView(t, Reconcile({}, Viewed(t), [])).(polls := HistoryAt(t, [], [], 0));
    run, s := Extend(CFG, t, run, u, WriteBack(0));
    ReachableOn(CFG, t, run, s);
    assert s.polls.decided == [];
  }

  // A fair run.

  /** A worker that keeps failing on the key: five steps that come back to where they began. */
  function Failing(i: nat): Action
  {
    if i % 5 == 0 then Get(0) else if i % 5 == 1 then ReadCache(0) else if i % 5 == 2 then Fail(0)
    else if i % 5 == 3 then Action.Requeue(0) else Finish(0)
  }

  function Phase(s: State, k: string, r: Record, n: nat): State
    requires |s.workers| == 1
  {
    var held := Q.Queue([], {}, {k}, {});
    if n == 0 then s.(queue := Due(k), workers := [Worker(Idle, Hold(true, 1))])
    else if n == 1 then s.(queue := held, workers := [Worker(Got(k), Hold(false, 0))])
    else if n == 2 then s.(queue := held, workers := [Worker(Holding(k, r), Hold(true, 0))])
    else if n == 3 then s.(queue := held, workers := [Worker(PC.Failed(k), Hold(true, 0))])
    else s.(queue := held.(dirty := {k}), workers := [Worker(Requeued(k), Hold(true, 1))])
  }

  lemma PhaseFrame(s: State, k: string, r: Record, n: nat)
    requires |s.workers| == 1
    ensures var u := Phase(s, k, r, n);
            |u.workers| == 1 && u.cache == s.cache && u.poller == s.poller && u.queue.delayed == {}
  {
  }

  lemma PhaseStep(s: State, k: string, r: Record, i: nat)
    requires !s.crashed && |s.workers| == 1 && k in s.cache && s.cache[k] == RecordItem(r)
    ensures var n := i % 5; var u := Phase(s, k, r, n);
            Enabled(CFG, u, Failing(i)) && Apply(CFG, u, Failing(i)) == Phase(s, k, r, if n == 4 then 0 else n + 1)
  {
    var n := i % 5;
    var u := Phase(s, k, r, n);
    assert Apply(CFG, u, Failing(i)).workers == Phase(s, k, r, if n == 4 then 0 else n + 1).workers;
    assert Apply(CFG, u, Failing(i)).queue == Phase(s, k, r, if n == 4 then 0 else n + 1).queue;
  }

  function FailingTrace(s: State, k: string, r: Record): Trace
    requires |s.workers| == 1
  {
    Trace((i: nat) => Phase(s, k, r, (i + 1) % 5), (i: nat) => Failing(i + 1))
  }

  lemma FailingStep(s: State, k: string, r: Record, i: nat)
    requires !s.crashed && |s.workers| == 1 && k in s.cache && s.cache[k] == RecordItem(r)
    ensures StepAt(CFG, FailingTrace(s, k, r), i)
  {
    PhaseStep(s, k, r, i + 1);
    assert (i + 2) % 5 == if (i + 1) % 5 == 4 then 0 else (i + 1) % 5 + 1;
  }

  lemma FailingStart(s: State, k: string, r: Record)
    requires OneKey(CFG, s, k, r)
    ensures Reachable(CFG, Phase(s, k, r, 1))
  {
    Running(CFG, s);
    LeadsOne(CFG, s, Get(0));
    var t := Apply(CFG, s, Get(0));
    assert t.workers == Phase(s, k, r, 1).workers && t.queue == Phase(s, k, r, 1).queue;
    ReachableOn(CFG, s, [Get(0)], t);
  }

  /** One worker, and nobody waits at time i. */
  ghost predicate Serves(t: Trace, k: string, i: nat)
  {
    && |t.st(i).workers| == 1 && k in t.st(i).cache
    && WorkerServed(t, 0, i) && PollerServed(t, i) && forall x :: TimerServed(t, x, i)
  }

  lemma ServingIsFair(cfg: Config, t: Trace, k: string)
    requires Reachable(cfg, t.st(0)) && forall i: nat :: StepAt(cfg, t, i)
    requires forall i: nat :: Serves(t, k, i)
    ensures Fair(cfg, t) && CachedFrom(t, k, 0)
  {
    assert Serves(t, k, 0);
    forall w: nat, i: nat | w < |t.st(0).workers| ensures WorkerServed(t, w, i) { assert Serves(t, k, i); }
    forall x, i: nat ensures TimerServed(t, x, i) { assert Serves(t, k, i); }
    forall i: nat ensures PollerServed(t, i) { assert Serves(t, k, i); }
    forall i: nat ensures k in t.st(i).cache { assert Serves(t, k, i); }
  }

  lemma ServesNow(t: Trace, k: string, i: nat)
    requires |t.st(i).workers| == 1 && k in t.st(i).cache
    requires Moves(t.act(i), 0) && !t.st(i).poller.Added? && t.st(i).queue.delayed == {}
    ensures Serves(t, k, i)
  {
    forall x ensures TimerServed(t, x, i) { assert x !in t.st(i).queue.delayed; }
  }

  lemma FailingServes(s: State, k: string, r: Record, i: nat)
    requires |s.workers| == 1 && !s.poller.Added? && k in s.cache
    ensures Serves(FailingTrace(s, k, r), k, i)
  {
    PhaseFrame(s, k, r, (i + 1) % 5);
    assert Moves(Failing(i + 1), 0);
    ServesNow(FailingTrace(s, k, r), k, i);
  }

  /** There are fair runs that keep a key cached, even if every scrape fails. */
  lemma FairRunExists(rt: Runtime) returns (t: Trace)
    requires rt.subAccountID != "" && MayBeTrackable(rt, true)
    ensures Fair(CFG, t) && CachedFrom(t, rt.subAccountID, 0)
  {
    var s := FirstPoll(rt);
    var k, r := rt.subAccountID, NewRecord(rt);
    t := FailingTrace(s, k, r);
    Running(CFG, s);
    FailingStart(s, k, r);
    forall i: nat ensures StepAt(CFG, t, i) { FailingStep(s, k, r, i); }
    forall i: nat ensures Serves(t, k, i) { FailingServes(s, k, r, i); }
    ServingIsFair(CFG, t, k);
  }
}
