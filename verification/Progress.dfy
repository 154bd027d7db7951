/** From every reachable state, every cached sub-account can still be scraped: nothing is stuck. */
module Progress {
  import opened Domain
  import opened Process
  import opened Protocol
  import opened Safety
  import Q = WorkQueue

  /** What is left for a worker to do before it is idle again. */
  function Rank(pc: PC): nat
  {
    match pc
    case Idle => 0
    case Missed(_) | Requeued(_) | Owes(_) => 1
    case Written(_) | Failed(_) => 2
    case Collected(_, _) => 3
    case Holding(_, _) => 4
    case Got(_) => 5
  }

  /** One way out of every program point. */
  function WayOut(pc: PC, w: nat): Action
    requires !pc.Idle?
  {
    match pc
    case Got(_) => ReadCache(w)
    case Holding(_, _) => Fail(w)
    case Collected(_, _) => WriteBack(w)
    case Failed(_) => Action.Requeue(w)
    case Owes(_) => ReAdd(w)
    case _ => Finish(w)
  }

  /** t is s after some steps of worker w alone, none of which took a key off the queue. */
  ghost predicate Settled(s: State, t: State, w: nat)
  {
    && w < |s.workers| == |t.workers|
    && (forall v :: 0 <= v < |s.workers| && v != w ==> t.workers[v] == s.workers[v])
    && s.poller == t.poller
    && s.cache.Keys <= t.cache.Keys
    && s.queue.ready <= t.queue.ready
  }

  lemma ReadyGrows(q: Q.Queue, k: string, interval: int)
    ensures q.ready <= Q.Done(q, k).ready && q.ready <= Q.AddAfter(q, k, interval).ready
  {
  }

  lemma OneStepOut(cfg: Config, s: State, w: nat)
    requires !s.crashed && w < |s.workers| && !s.workers[w].pc.Idle?
    requires forall k :: k in s.cache ==> s.cache[k].RecordItem?
    ensures var a := WayOut(s.workers[w].pc, w);
            && Enabled(cfg, s, a) && Settled(s, Apply(cfg, s, a), w)
            && Rank(Apply(cfg, s, a).workers[w].pc) < Rank(s.workers[w].pc)
  {
    ReadyGrows(s.queue, s.workers[w].pc.key, cfg.interval);
    match s.workers[w].pc {
      case Got(k) =>
      case Holding(_, _) =>
      case Collected(_, r) =>
      case Failed(_) =>
      case Owes(_) =>
      case _ =>
    }
  }

  lemma {:induction false} SettleOne(cfg: Config, s: State, w: nat) returns (run: seq<Action>, t: State)
    requires Reachable(cfg, s) && w < |s.workers|
    ensures Leads(cfg, s, run, t) && Reachable(cfg, t) && Settled(s, t, w) && t.workers[w].pc.Idle?
    decreases Rank(s.workers[w].pc)
  {
    run, t := [], s;
    if !s.workers[w].pc.Idle? {
      var a, u := StepOut(cfg, s, w);
      run, t := SettleOne(cfg, u, w);
      LeadsOn(cfg, s, [a], u, run, t);
      run := [a] + run;
    }
  }

  lemma StepOut(cfg: Config, s: State, w: nat) returns (a: Action, t: State)
    requires Reachable(cfg, s) && w < |s.workers| && !s.workers[w].pc.Idle?
    ensures Leads(cfg, s, [a], t) && Reachable(cfg, t) && Settled(s, t, w) && Rank(t.workers[w].pc) < Rank(s.workers[w].pc)
  {
    ReachableInv(cfg, s);
    OneStepOut(cfg, s, w);
    a := WayOut(s.workers[w].pc, w);
    t := Apply(cfg, s, a);
    LeadsOne(cfg, s, a);
    ReachableOn(cfg, s, [a], t);
  }

  ghost predicate AllIdle(s: State, n: nat)
  {
    n <= |s.workers| && forall w :: 0 <= w < n ==> s.workers[w].pc.Idle?
  }

  lemma {:induction false} SettleAll(cfg: Config, s: State, n: nat) returns (run: seq<Action>, t: State)
    requires Reachable(cfg, s) && n <= |s.workers|
    ensures Leads(cfg, s, run, t) && Reachable(cfg, t)
    ensures AllIdle(t, n) && |t.workers| == |s.workers| && s.cache.Keys <= t.cache.Keys
    decreases n
  {
    run, t := [], s;
    if n > 0 {
      var first, u := SettleAll(cfg, s, n - 1);
      run, t := SettleOne(cfg, u, n - 1);
      LeadsOn(cfg, s, first, u, run, t);
      run := first + run;
    }
  }

  /** With all workers idle, nothing is in processing, so a dirty key is ready. */
  lemma IdleMeansReady(cfg: Config, s: State, k: string)
    requires Reachable(cfg, s) && AllIdle(s, |s.workers|) && k in s.queue.dirty
    ensures k in s.queue.ready
  {
    ReachableInv(cfg, s);
    assert forall w: nat, x :: !Holds(s, w, x);
  }

  /** A covered key that is not queued is one timer or one poller step away from the queue. */
  lemma OneMove(cfg: Config, s: State, k: string) returns (a: Action)
    requires !s.crashed && Covered(s, k) && AllIdle(s, |s.workers|) && k !in s.queue.dirty
    ensures Enabled(cfg, s, a)
    ensures var t := Apply(cfg, s, a); t.workers == s.workers && t.cache == s.cache && k in t.queue.dirty
  {
    assert !Promised(s, k);
    a := if k in s.queue.delayed then Fire(k) else Enqueue;
  }

  /** A cached key can be brought into the ready list. */
  lemma MakeReady(cfg: Config, s: State, k: string) returns (run: seq<Action>, t: State)
    requires Reachable(cfg, s) && AllIdle(s, |s.workers|) && k in s.cache
    ensures Leads(cfg, s, run, t) && Reachable(cfg, t) && t.workers == s.workers && t.cache == s.cache && k in t.queue.ready
  {
    run, t := [], s;
    if k !in s.queue.dirty {
      ReachableInv(cfg, s);
      var a := OneMove(cfg, s, k);
      LeadsOne(cfg, s, a);
      run, t := [a], Apply(cfg, s, a);
      ReachableOn(cfg, s, run, t);
    }
    IdleMeansReady(cfg, t, k);
  }

  lemma TakeFirst(cfg: Config, s: State) returns (t: State)
    requires Reachable(cfg, s) && |s.workers| > 0 && s.workers[0].pc.Idle? && s.queue.ready != []
    ensures Leads(cfg, s, [Get(0)], t) && Reachable(cfg, t)
    ensures t.cache == s.cache && t.queue.ready == s.queue.ready[1..] && |t.workers| > 0
    ensures t.workers[0].pc == Got(s.queue.ready[0])
  {
    ReachableInv(cfg, s);
    t := Apply(cfg, s, Get(0));
    LeadsOne(cfg, s, Get(0));
    ReachableOn(cfg, s, [Get(0)], t);
  }

  ghost predicate HeldBy(s: State, w: nat, k: string)
  {
    w < |s.workers| && s.workers[w].pc.Holding? && s.workers[w].pc.key == k
  }

  lemma ReadHit(cfg: Config, s: State) returns (t: State)
    requires Reachable(cfg, s) && |s.workers| > 0 && s.workers[0].pc.Got? && s.workers[0].pc.key in s.cache
    ensures Leads(cfg, s, [ReadCache(0)], t) && HeldBy(t, 0, s.workers[0].pc.key)
  {
    ReachableInv(cfg, s);
    t := Apply(cfg, s, ReadCache(0));
    LeadsOne(cfg, s, ReadCache(0));
  }

  /** Worker 0 works its way through the ready list up to position i. */
  lemma {:induction false} WorkUpTo(cfg: Config, s: State, i: nat) returns (run: seq<Action>, t: State)
    requires Reachable(cfg, s) && |s.workers| > 0 && s.workers[0].pc.Idle? && i < |s.queue.ready| && s.queue.ready[i] in s.cache
    ensures Leads(cfg, s, run, t) && HeldBy(t, 0, s.queue.ready[i])
    decreases i
  {
    var u := TakeFirst(cfg, s);
    if i == 0 {
      t := ReadHit(cfg, u);
      run := [ReadCache(0)];
    } else {
      var settle, v := SettleOne(cfg, u, 0);
      assert v.queue.ready[i - 1] == u.queue.ready[i - 1] == s.queue.ready[i];
      var rest;
      rest, t := WorkUpTo(cfg, v, i - 1);
      LeadsOn(cfg, u, settle, v, rest, t);
      run := settle + rest;
    }
    LeadsOn(cfg, s, [Get(0)], u, run, t);
    run := [Get(0)] + run;
  }

  /** In every reachable state of a process with workers, every cached sub-account has a continuation in which
      a worker reads its record. */
  lemma CanAlwaysBeScraped(cfg: Config, s: State, k: string) returns (future: seq<Action>)
    requires Reachable(cfg, s) && |s.workers| > 0 && k in s.cache
    ensures Legal(cfg, s, future) && exists w: nat :: HeldBy(Run(cfg, s, future), w, k)
  {
    var settle, s1 := SettleAll(cfg, s, |s.workers|);
    var ready, s2 := MakeReady(cfg, s1, k);
    var i: nat :| i < |s2.queue.ready| && s2.queue.ready[i] == k;
    var work, s3 := WorkUpTo(cfg, s2, i);
    LeadsOn(cfg, s1, ready, s2, work, s3);
    LeadsOn(cfg, s, settle, s1, ready + work, s3);
    future := settle + (ready + work);
  }
}
