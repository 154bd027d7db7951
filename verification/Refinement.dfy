/** The sequential methods are runs of the protocol: a poll nobody interrupts, and a worker's turn nobody interrupts. */
module Refinement {
  import opened Domain
  import opened ClusterTracking
  import opened Process
  import opened Protocol
  import Q = WorkQueue
  import C = Collector

  // A poll.

  function Viewed(s: State): PollState
  {
    PollState(s.cache, s.queue)
  }

  function WithView(s: State, st: PollState): State
  {
    s.(cache := st.cache, queue := st.queue)
  }

  function Seen(valid: set<string>, rt: Runtime): set<string>
  {
    if rt.subAccountID == "" then valid else valid + {rt.subAccountID}
  }

  /** A decision taken on what the cache still holds does what the loop does, up to the call of Queue.Add. */
  lemma Decision(cfg: Config, s: State, b: bool)
    requires s.poller.Read? && s.poller.rt.subAccountID != "" && s.poller.found == Lookup(s.cache, s.poller.rt.subAccountID)
    ensures var rt := s.poller.rt;
            var one := ReconcileOne(cfg.filtered, Viewed(s), Decided(rt, b));
            && DecidedCache(cfg, s, b) == one.cache
            && one.queue == if Adds(cfg, s, b) then Q.Add(s.queue, rt.subAccountID) else s.queue
  {
    var k := s.poller.rt.subAccountID;
    assert k in s.cache ==> s.cache[k := s.cache[k]] == s.cache;
    assert k !in s.cache ==> s.cache - {k} == s.cache;
  }

  /** The steps the poller takes for one runtime amount to one turn of the loop. */
  lemma OneRuntime(cfg: Config, s: State, rt: Runtime, b: bool, todo: seq<Runtime>, valid: set<string>) returns (run: seq<Action>)
    requires !s.crashed && s.poller == Scanning([rt] + todo, valid) && s.polls.restored == map[]
    requires MayDecide(cfg.filtered, rt, b)
    ensures Leads(cfg, s, run, WithView(s, ReconcileOne(cfg.filtered, Viewed(s), Decided(rt, b))).(
                                 poller := Scanning(todo, Seen(valid, rt)), polls := Passed(s.polls, Decided(rt, b), map[])))
  {
    var t := Apply(cfg, s, NextRuntime);
    LeadsOne(cfg, s, NextRuntime);
    assert ([rt] + todo)[1..] == todo;
    run := [NextRuntime];
    if rt.subAccountID != "" {
      var u := Apply(cfg, t, DecideOn(b));
      LeadsStep(cfg, s, run, t, DecideOn(b));
      Decision(cfg, t, b);
      run := run + [DecideOn(b)];
      if u.poller.Added? {
        LeadsStep(cfg, s, run, u, Enqueue);
        run := run + [Enqueue];
      }
    }
  }

  /** The history after n runtimes of a poll. */
  function HistoryAt(s: State, page: seq<Runtime>, decided: seq<Decided>, n: nat): Polls
    requires n <= |decided|
  {
    Started(s, page).(decided := decided[..n], verdicts := s.polls.verdicts + set d | d in decided[..n])
  }

  lemma HistoryGrowsBy(s: State, page: seq<Runtime>, decided: seq<Decided>, n: nat)
    requires 0 < n <= |decided|
    ensures HistoryAt(s, page, decided, n) == Passed(HistoryAt(s, page, decided, n - 1), decided[n - 1], map[])
  {
    assert decided[..n] == decided[..n - 1] + [decided[n - 1]];
    assert HistoryAt(s, page, decided, n).verdicts == Passed(HistoryAt(s, page, decided, n - 1), decided[n - 1], map[]).verdicts;
  }

  function At(cfg: Config, s: State, page: seq<Runtime>, decided: seq<Decided>, n: nat): State
    requires n <= |page| == |decided|
  {
    WithView(s, ReconcileTo(cfg.filtered, Viewed(s), decided, n)).(
      poller := Scanning(page[n..], Reported(decided, n)),
      polls := HistoryAt(s, page, decided, n))
  }

  lemma LoopTurn(cfg: Config, s: State, page: seq<Runtime>, decided: seq<Decided>, n: nat) returns (run: seq<Action>)
    requires !s.crashed && VerdictsOf(cfg.filtered, page, decided) && 0 < n <= |page|
    ensures Leads(cfg, At(cfg, s, page, decided, n - 1), run, At(cfg, s, page, decided, n))
  {
    var rt, b := page[n - 1], decided[n - 1].trackable;
    assert page[n - 1..] == [rt] + page[n..];
    run := OneRuntime(cfg, At(cfg, s, page, decided, n - 1), rt, b, page[n..], Reported(decided, n - 1));
    assert Seen(Reported(decided, n - 1), rt) == Reported(decided, n);
    assert decided[n - 1] == Decided(rt, b);
    HistoryGrowsBy(s, page, decided, n);
  }

  lemma LoopStart(cfg: Config, s: State, page: seq<Runtime>, decided: seq<Decided>) returns (run: seq<Action>)
    requires !s.crashed && s.poller.Sleeping? && |decided| == |page|
    ensures Leads(cfg, s, run, At(cfg, s, page, decided, 0))
  {
    LeadsOne(cfg, s, StartPoll(page));
    run := [StartPoll(page)];
    assert page[0..] == page && Reported(decided, 0) == {} && HistoryAt(s, page, decided, 0) == Started(s, page);
  }

  lemma {:induction false} Loop(cfg: Config, s: State, page: seq<Runtime>, decided: seq<Decided>, n: nat) returns (run: seq<Action>)
    requires !s.crashed && s.poller.Sleeping? && VerdictsOf(cfg.filtered, page, decided) && n <= |page|
    ensures Leads(cfg, s, run, At(cfg, s, page, decided, n))
    decreases n
  {
    if n == 0 {
      run := LoopStart(cfg, s, page, decided);
    } else {
      run := Loop(cfg, s, page, decided, n - 1);
      var turn := LoopTurn(cfg, s, page, decided, n);
      LeadsOn(cfg, s, run, At(cfg, s, page, decided, n - 1), turn, At(cfg, s, page, decided, n));
      run := run + turn;
    }
  }

  lemma {:induction false} CleanAll(cfg: Config, s: State, doomed: set<string>) returns (run: seq<Action>)
    requires !s.crashed && s.poller == Cleaning(doomed) && s.polls.restored == map[]
    ensures Leads(cfg, s, run, s.(cache := s.cache - doomed, poller := Sleeping))
    decreases doomed
  {
    if doomed == {} {
      LeadsOne(cfg, s, EndCleanup);
      run := [EndCleanup];
      assert s.cache - doomed == s.cache;
    } else {
      var k :| k in doomed;
      var t := Apply(cfg, s, CleanUp(k));
      LeadsOne(cfg, s, CleanUp(k));
      run := CleanAll(cfg, t, doomed - {k});
      assert t.cache - (doomed - {k}) == s.cache - doomed;
      LeadsOn(cfg, s, [CleanUp(k)], t, run, s.(cache := s.cache - doomed, poller := Sleeping));
      run := [CleanUp(k)] + run;
    }
  }

  /** What PopulateCacheAndQueue does to cache and queue, the poller can do by itself, step by step. */
  lemma PollIsRun(cfg: Config, s: State, page: seq<Runtime>, decided: seq<Decided>) returns (run: seq<Action>)
    requires !s.crashed && s.poller.Sleeping? && VerdictsOf(cfg.filtered, page, decided)
    ensures Leads(cfg, s, run, WithView(s, Reconcile(cfg.filtered, Viewed(s), decided)).(
                                 polls := HistoryAt(s, page, decided, |decided|)))
  {
    run := Loop(cfg, s, page, decided, |page|);
    var t := At(cfg, s, page, decided, |page|);
    LeadsStep(cfg, s, run, t, BeginCleanup);
    var u := Apply(cfg, t, BeginCleanup);
    var clean := CleanAll(cfg, u, u.poller.doomed);
    LeadsOn(cfg, s, run + [BeginCleanup], u, clean, u.(cache := u.cache - u.poller.doomed, poller := Sleeping));
    run := run + [BeginCleanup] + clean;
  }

  // A worker's turn.

  /** The bills after an attempt on a record: one more, if the pass had anything to bill. */
  function BillsAfter(cfg: Config, s: State, r: Record, a: Attempt): seq<Bill>
    requires a.Scrape? ==> |a.outcomes| == |cfg.scanners|
  {
    if a.NoClients? then s.bills
    else
      var o := C.Collect(cfg.scanners, cfg.edp, a.outcomes, a.sendOk, r.scanMap);
      if o.billed then s.bills + [Bill(r.info, s.passes, o.scans, r.scanMap, a.sendOk, o.ok)] else s.bills
  }

  /** Cache and queue after an uninterrupted turn on key k, as ExecuteOnce leaves them, and what was billed. */
  ghost predicate TurnTaken(cfg: Config, s: State, t: State, k: string, a: Attempt)
    requires a.Scrape? ==> |a.outcomes| == |cfg.scanners|
    requires s.queue.ready != [] && (k in s.cache ==> s.cache[k].RecordItem?)
  {
    var q := Q.Get(s.queue);
    if k !in s.cache then t.cache == s.cache && t.queue == Q.Done(q, k) && t.bills == s.bills
    else
      && t.bills == BillsAfter(cfg, s, s.cache[k].record, a) && t.passes == s.passes + (if a.Scrape? then 1 else 0)
      && match Processed(cfg.scanners, cfg.edp, s.cache[k].record, a)
         case None => t.cache == s.cache && t.queue == Q.Done(Q.AddAfter(q, k, cfg.interval), k)
         case Some(r) =>
           t.cache == s.cache[r.info.subAccountID := RecordItem(r)] && t.queue == Q.AddAfter(Q.Done(q, k), k, cfg.interval)
  }

  /** The scans of the attempt are taken in the next pass, for the cluster the record names. */
  predicate FromThisPass(s: State, k: string, a: Attempt)
  {
    a.Scrape? && k in s.cache && s.cache[k].RecordItem? ==> TakenIn(a.outcomes, s.passes, s.cache[k].record.info)
  }

  lemma ErrorTail(cfg: Config, s: State, run: seq<Action>, t: State, w: nat) returns (all: seq<Action>, u: State)
    requires Leads(cfg, s, run, t) && !t.crashed && w < |t.workers| && t.workers[w].pc.Failed?
    ensures Leads(cfg, s, all, u) && w < |u.workers| && u.workers[w].pc.Idle? && u.cache == t.cache && u.poller == t.poller
    ensures u.bills == t.bills && u.passes == t.passes && !u.crashed && |u.workers| == |t.workers|
    ensures u.queue == Q.Done(Q.AddAfter(t.queue, t.workers[w].pc.key, cfg.interval), t.workers[w].pc.key)
  {
    var v := Apply(cfg, t, Action.Requeue(w));
    LeadsStep(cfg, s, run, t, Action.Requeue(w));
    LeadsStep(cfg, s, run + [Action.Requeue(w)], v, Finish(w));
    all, u := run + [Action.Requeue(w)] + [Finish(w)], Apply(cfg, v, Finish(w));
  }

  lemma SuccessTail(cfg: Config, s: State, run: seq<Action>, t: State, w: nat) returns (all: seq<Action>, u: State)
    requires Leads(cfg, s, run, t) && !t.crashed && w < |t.workers| && t.workers[w].pc.Collected?
    ensures Leads(cfg, s, all, u) && w < |u.workers| && u.workers[w].pc.Idle? && u.poller == t.poller
    ensures u.bills == t.bills && u.passes == t.passes && !u.crashed && |u.workers| == |t.workers|
    ensures var r := t.workers[w].pc.record; u.cache == t.cache[r.info.subAccountID := RecordItem(r)]
    ensures u.queue == Q.AddAfter(Q.Done(t.queue, t.workers[w].pc.key), t.workers[w].pc.key, cfg.interval)
  {
    var v := Apply(cfg, t, WriteBack(w));
    var x := Apply(cfg, v, Finish(w));
    LeadsStep(cfg, s, run, t, WriteBack(w));
    LeadsStep(cfg, s, run + [WriteBack(w)], v, Finish(w));
    LeadsStep(cfg, s, run + [WriteBack(w)] + [Finish(w)], x, ReAdd(w));
    all, u := run + [WriteBack(w)] + [Finish(w)] + [ReAdd(w)], Apply(cfg, x, ReAdd(w));
  }

  /** A worker's turn on a record: try, then write back and re-schedule, or re-schedule after the error. */
  lemma RecordTurn(cfg: Config, s: State, run: seq<Action>, t: State, w: nat, a: Attempt) returns (all: seq<Action>, u: State)
    requires a.Scrape? ==> |a.outcomes| == |cfg.scanners|
    requires Leads(cfg, s, run, t) && !t.crashed && w < |t.workers| && t.workers[w].pc.Holding?
    requires a.Scrape? ==> TakenIn(a.outcomes, t.passes, t.workers[w].pc.record.info)
    ensures Leads(cfg, s, all, u) && w < |u.workers| && u.workers[w].pc.Idle? && u.poller == t.poller && !u.crashed && |u.workers| == |t.workers|
    ensures u.bills == BillsAfter(cfg, t, t.workers[w].pc.record, a) && u.passes == t.passes + (if a.Scrape? then 1 else 0)
    ensures var k := t.workers[w].pc.key;
            match Processed(cfg.scanners, cfg.edp, t.workers[w].pc.record, a)
            case None => u.cache == t.cache && u.queue == Q.Done(Q.AddAfter(t.queue, k, cfg.interval), k)
            case Some(r) =>
              u.cache == t.cache[r.info.subAccountID := RecordItem(r)] && u.queue == Q.AddAfter(Q.Done(t.queue, k), k, cfg.interval)
  {
    var act := if a.NoClients? then Fail(w) else Collect(w, a.outcomes, a.sendOk);
    LeadsStep(cfg, s, run, t, act);
    var v := Apply(cfg, t, act);
    if v.workers[w].pc.Failed? {
      all, u := ErrorTail(cfg, s, run + [act], v, w);
    } else {
      all, u := SuccessTail(cfg, s, run + [act], v, w);
    }
  }

  /** What ExecuteOnce does, a worker can do by itself, step by step. */
  lemma TurnIsRun(cfg: Config, s: State, w: nat, a: Attempt) returns (run: seq<Action>, t: State)
    requires !s.crashed && w < |s.workers| && s.workers[w].pc.Idle? && s.queue.ready != []
    requires a.Scrape? ==> |a.outcomes| == |cfg.scanners|
    requires var k := s.queue.ready[0]; FromThisPass(s, k, a) && (k in s.cache ==> s.cache[k].RecordItem?)
    ensures Leads(cfg, s, run, t) && TurnTaken(cfg, s, t, s.queue.ready[0], a)
    ensures w < |t.workers| && t.workers[w].pc.Idle? && t.poller == s.poller && !t.crashed && |t.workers| == |s.workers|
  {
    var k := s.queue.ready[0];
    var s1 := Apply(cfg, s, Get(w));
    LeadsOne(cfg, s, Get(w));
    var s2 := Apply(cfg, s1, ReadCache(w));
    LeadsStep(cfg, s, [Get(w)], s1, ReadCache(w));
    run := [Get(w)] + [ReadCache(w)];
    if k in s.cache {
      run, t := RecordTurn(cfg, s, run, s2, w, a);
    } else {
      LeadsStep(cfg, s, run, s2, Finish(w));
      run, t := run + [Finish(w)], Apply(cfg, s2, Finish(w));
    }
  }
}
