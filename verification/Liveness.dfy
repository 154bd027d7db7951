/** Fair infinite runs: a sub-account that stays cached is scraped again and again. */
module Liveness {
  import opened Domain
  import opened Process
  import opened Protocol
  import opened Safety
  import opened Progress

  /** An infinite run: the state at each time, and the action taken there. */
  datatype Trace = Trace(st: nat -> State, act: nat -> Action)

  ghost predicate StepAt(cfg: Config, t: Trace, i: nat)
  {
    Enabled(cfg, t.st(i), t.act(i)) && t.st(i + 1) == Apply(cfg, t.st(i), t.act(i))
  }

  ghost predicate IsRun(cfg: Config, t: Trace)
  {
    Reachable(cfg, t.st(0)) && |t.st(0).workers| > 0 && forall i: nat :: StepAt(cfg, t, i)
  }

  /** The action is a step of worker w. */
  predicate Moves(a: Action, w: nat)
  {
    match a
    case Get(v) => v == w
    case ReadCache(v) => v == w
    case Fail(v) => v == w
    case Collect(v, _, _) => v == w
    case WriteBack(v) => v == w
    case Requeue(v) => v == w
    case Finish(v) => v == w
    case ReAdd(v) => v == w
    case _ => false
  }

  predicate CanMove(s: State, w: nat)
  {
    w < |s.workers| && (!s.workers[w].pc.Idle? || s.queue.ready != [])
  }

  // Nobody is kept waiting for ever: what stays possible is done at some point.

  ghost predicate WorkerServed(t: Trace, w: nat, i: nat)
  {
    exists j :: i <= j && (Moves(t.act(j), w) || !CanMove(t.st(j), w))
  }

  ghost predicate TimerServed(t: Trace, k: string, i: nat)
  {
    exists j :: i <= j && (t.act(j) == Fire(k) || k !in t.st(j).queue.delayed)
  }

  ghost predicate PollerServed(t: Trace, i: nat)
  {
    exists j :: i <= j && (t.act(j) == Enqueue || !t.st(j).poller.Added?)
  }

  ghost predicate Fair(cfg: Config, t: Trace)
  {
    && IsRun(cfg, t)
    && (forall w: nat, i: nat :: w < |t.st(0).workers| ==> WorkerServed(t, w, i))
    && (forall k, i: nat :: TimerServed(t, k, i))
    && (forall i: nat :: PollerServed(t, i))
  }

  lemma {:induction false} RunReachable(cfg: Config, t: Trace, i: nat)
    requires IsRun(cfg, t)
    ensures Reachable(cfg, t.st(i)) && |t.st(i).workers| == |t.st(0).workers|
  {
    if i > 0 {
      RunReachable(cfg, t, i - 1);
      assert StepAt(cfg, t, i - 1);
      LeadsOne(cfg, t.st(i - 1), t.act(i - 1));
      ReachableOn(cfg, t.st(i - 1), [t.act(i - 1)], t.st(i));
      SameWorkers(cfg, t.st(i - 1), t.act(i - 1));
    }
  }

  lemma SameWorkers(cfg: Config, s: State, a: Action)
    requires Enabled(cfg, s, a)
    ensures |Apply(cfg, s, a).workers| == |s.workers|
    ensures forall w: nat :: w < |s.workers| && !Moves(a, w) ==> Apply(cfg, s, a).workers[w] == s.workers[w]
  {
  }

  predicate AllRecords(cache: Cache)
  {
    forall k :: k in cache ==> cache[k].RecordItem?
  }

  lemma RunInv(cfg: Config, t: Trace, i: nat)
    requires IsRun(cfg, t)
    ensures Exclusive(t.st(i)) && NothingLost(t.st(i)) && AllRecords(t.st(i).cache) && StepAt(cfg, t, i)
  {
    RunReachable(cfg, t, i);
    ReachableInv(cfg, t.st(i));
  }

  // A worker's next move.

  /** The first move of w at or after i, if there is one up to j. */
  lemma {:induction false} FirstMove(cfg: Config, t: Trace, w: nat, i: nat, j: nat) returns (m: nat)
    requires IsRun(cfg, t) && w < |t.st(0).workers| && i <= j
    requires Moves(t.act(j), w) || exists n :: i <= n < j && Moves(t.act(n), w)
    ensures i <= m <= j && Moves(t.act(m), w) && forall n :: i <= n < m ==> !Moves(t.act(n), w)
    decreases j - i
  {
    if Moves(t.act(i), w) { m := i; } else { m := FirstMove(cfg, t, w, i + 1, j); }
  }

  lemma {:induction false} Unmoved(cfg: Config, t: Trace, w: nat, i: nat, j: nat)
    requires IsRun(cfg, t) && w < |t.st(0).workers| && i <= j
    requires forall n :: i <= n < j ==> !Moves(t.act(n), w)
    ensures |t.st(i).workers| == |t.st(j).workers| == |t.st(0).workers| && t.st(j).workers[w] == t.st(i).workers[w]
    decreases j - i
  {
    RunReachable(cfg, t, i);
    if i < j {
      Unmoved(cfg, t, w, i, j - 1);
      assert StepAt(cfg, t, j - 1);
      SameWorkers(cfg, t.st(j - 1), t.act(j - 1));
    }
  }

  /** A busy worker moves, and until then stays where it is. */
  lemma NextMove(cfg: Config, t: Trace, w: nat, i: nat) returns (m: nat)
    requires Fair(cfg, t) && w < |t.st(i).workers| == |t.st(0).workers| && !t.st(i).workers[w].pc.Idle?
    ensures i <= m && Moves(t.act(m), w) && |t.st(m).workers| == |t.st(0).workers| && t.st(m).workers[w] == t.st(i).workers[w]
    ensures forall n :: i <= n < m ==> !Moves(t.act(n), w)
  {
    assert WorkerServed(t, w, i);
    var j :| i <= j && (Moves(t.act(j), w) || !CanMove(t.st(j), w));
    if !Moves(t.act(j), w) && forall n :: i <= n < j ==> !Moves(t.act(n), w) {
      Unmoved(cfg, t, w, i, j);
      assert false;
    }
    m := FirstMove(cfg, t, w, i, j);
    Unmoved(cfg, t, w, i, m);
  }

  lemma RankDrops(cfg: Config, s: State, a: Action, w: nat)
    requires Enabled(cfg, s, a) && w < |s.workers| && Moves(a, w) && !s.workers[w].pc.Idle?
    requires AllRecords(s.cache)
    ensures |Apply(cfg, s, a).workers| == |s.workers| && Rank(Apply(cfg, s, a).workers[w].pc) < Rank(s.workers[w].pc)
  {
    match a {
      case ReadCache(_) =>
      case Collect(_, _, _) =>
      case _ =>
    }
  }

  lemma {:induction false} BecomesIdle(cfg: Config, t: Trace, w: nat, i: nat) returns (j: nat)
    requires Fair(cfg, t) && w < |t.st(i).workers| == |t.st(0).workers|
    ensures i <= j && w < |t.st(j).workers| && t.st(j).workers[w].pc.Idle?
    decreases Rank(t.st(i).workers[w].pc)
  {
    j := i;
    if !t.st(i).workers[w].pc.Idle? {
      var m := NextMove(cfg, t, w, i);
      RunInv(cfg, t, m);
      RankDrops(cfg, t.st(m), t.act(m), w);
      j := BecomesIdle(cfg, t, w, m + 1);
    }
  }

  // The ready list.

  /** Only Get shortens the ready list. */
  lemma ReadyGrowsBut(cfg: Config, s: State, a: Action)
    requires Enabled(cfg, s, a) && !a.Get?
    ensures s.queue.ready <= Apply(cfg, s, a).queue.ready
  {
  }

  lemma {:induction false} ReadyKept(cfg: Config, t: Trace, i: nat, j: nat)
    requires IsRun(cfg, t) && i <= j && forall n :: i <= n < j ==> !t.act(n).Get?
    ensures t.st(i).queue.ready <= t.st(j).queue.ready
    decreases j - i
  {
    if i < j {
      ReadyKept(cfg, t, i, j - 1);
      assert StepAt(cfg, t, j - 1);
      ReadyGrowsBut(cfg, t.st(j - 1), t.act(j - 1));
    }
  }

  lemma {:induction false} FirstGet(cfg: Config, t: Trace, i: nat, j: nat) returns (m: nat)
    requires IsRun(cfg, t) && i <= j && exists n :: i <= n <= j && t.act(n).Get?
    ensures i <= m <= j && t.act(m).Get? && forall n :: i <= n < m ==> !t.act(n).Get?
    decreases j - i
  {
    if t.act(i).Get? { m := i; } else { m := FirstGet(cfg, t, i + 1, j); }
  }

  lemma IdleMoves(cfg: Config, t: Trace, m: nat)
    requires IsRun(cfg, t) && |t.st(m).workers| > 0 && t.st(m).workers[0].pc.Idle? && Moves(t.act(m), 0)
    ensures t.act(m).Get?
  {
    assert StepAt(cfg, t, m);
  }

  /** An idle worker does not leave a ready list alone. */
  lemma IdleWorkerGets(cfg: Config, t: Trace, i: nat) returns (j: nat)
    requires Fair(cfg, t) && t.st(i).queue.ready != []
    requires |t.st(i).workers| > 0 && t.st(i).workers[0].pc.Idle?
    ensures i <= j && exists n :: i <= n <= j && t.act(n).Get?
  {
    assert WorkerServed(t, 0, i);
    j :| i <= j && (Moves(t.act(j), 0) || !CanMove(t.st(j), 0));
    if forall n :: i <= n <= j ==> !t.act(n).Get? {
      ReadyKept(cfg, t, i, j);
      if Moves(t.act(j), 0) || exists n :: i <= n < j && Moves(t.act(n), 0) {
        var m := FirstMove(cfg, t, 0, i, j);
        Unmoved(cfg, t, 0, i, m);
        IdleMoves(cfg, t, m);
        assert false;
      }
      Unmoved(cfg, t, 0, i, j);
      assert false;
    }
  }

  lemma GetHappens(cfg: Config, t: Trace, i: nat) returns (m: nat)
    requires Fair(cfg, t) && t.st(i).queue.ready != []
    ensures i <= m && t.act(m).Get? && forall n :: i <= n < m ==> !t.act(n).Get?
  {
    RunReachable(cfg, t, i);
    var j := BecomesIdle(cfg, t, 0, i);
    if forall n :: i <= n <= j ==> !t.act(n).Get? {
      ReadyKept(cfg, t, i, j);
      j := IdleWorkerGets(cfg, t, j);
    }
    m := FirstGet(cfg, t, i, j);
  }

  /** The key has come into a worker's hands, which has yet to read the cache. */
  ghost predicate GotAt(t: Trace, w: nat, k: string, i: nat)
  {
    w < |t.st(i).workers| == |t.st(0).workers| && t.st(i).workers[w].pc == Got(k)
  }

  /** First in, first out: a ready key is taken. */
  lemma {:induction false} ReadyIsTaken(cfg: Config, t: Trace, k: string, p: nat, i: nat) returns (j: nat, w: nat)
    requires Fair(cfg, t) && p < |t.st(i).queue.ready| && t.st(i).queue.ready[p] == k
    ensures i <= j && GotAt(t, w, k, j)
    decreases p
  {
    var m := GetHappens(cfg, t, i);
    ReadyKept(cfg, t, i, m);
    RunReachable(cfg, t, m);
    RunReachable(cfg, t, m + 1);
    assert StepAt(cfg, t, m) && t.st(m).queue.ready[p] == k;
    if p == 0 {
      j, w := m + 1, t.act(m).w;
    } else {
      j, w := ReadyIsTaken(cfg, t, k, p - 1, m + 1);
    }
  }

  // From every place a cached key can be in, to being read.

  ghost predicate CachedFrom(t: Trace, k: string, i: nat)
  {
    forall j :: i <= j ==> k in t.st(j).cache
  }

  /** At time j a worker reads the record of k. */
  ghost predicate ReadAt(t: Trace, k: string, j: nat)
  {
    t.act(j).ReadCache? && HeldBy(t.st(j + 1), t.act(j).w, k)
  }

  lemma ReadingHits(cfg: Config, s: State, a: Action, k: string, w: nat)
    requires AllRecords(s.cache) && Enabled(cfg, s, a)
    requires w < |s.workers| && s.workers[w].pc == Got(k) && Moves(a, w) && k in s.cache
    ensures a == ReadCache(w) && HeldBy(Apply(cfg, s, a), w, k)
  {
  }

  lemma GotMoves(cfg: Config, t: Trace, k: string, w: nat, j: nat)
    requires IsRun(cfg, t) && GotAt(t, w, k, j) && Moves(t.act(j), w) && k in t.st(j).cache
    ensures ReadAt(t, k, j)
  {
    RunInv(cfg, t, j);
    ReadingHits(cfg, t.st(j), t.act(j), k, w);
  }

  lemma GotIsRead(cfg: Config, t: Trace, k: string, w: nat, i: nat) returns (j: nat)
    requires Fair(cfg, t) && CachedFrom(t, k, i) && GotAt(t, w, k, i)
    ensures i <= j && ReadAt(t, k, j)
  {
    j := NextMove(cfg, t, w, i);
    assert k in t.st(j).cache;
    GotMoves(cfg, t, k, w, j);
  }

  lemma ReadyIsRead(cfg: Config, t: Trace, k: string, i: nat) returns (j: nat)
    requires Fair(cfg, t) && CachedFrom(t, k, i) && k in t.st(i).queue.ready
    ensures i <= j && ReadAt(t, k, j)
  {
    var p: nat :| p < |t.st(i).queue.ready| && t.st(i).queue.ready[p] == k;
    var n, w := ReadyIsTaken(cfg, t, k, p, i);
    j := GotIsRead(cfg, t, k, w, n);
  }

  /** A dirty key that is held stays dirty until it is released. */
  lemma {:induction false} DirtyWhileHeld(cfg: Config, t: Trace, k: string, w: nat, i: nat, j: nat)
    requires IsRun(cfg, t) && i <= j && k in t.st(i).queue.dirty && Holds(t.st(i), w, k)
    requires forall n :: i <= n < j ==> !Moves(t.act(n), w)
    ensures k in t.st(j).queue.dirty
    decreases j - i
  {
    if i < j {
      DirtyWhileHeld(cfg, t, k, w, i, j - 1);
      RunReachable(cfg, t, i);
      Unmoved(cfg, t, w, i, j - 1);
      assert Holds(t.st(j - 1), w, k);
      DirtyKeptAt(cfg, t, k, w, j - 1);
    }
  }

  lemma DirtyKeptAt(cfg: Config, t: Trace, k: string, w: nat, j: nat)
    requires IsRun(cfg, t) && k in t.st(j).queue.dirty && Holds(t.st(j), w, k)
    ensures k in t.st(j + 1).queue.dirty
  {
    RunInv(cfg, t, j);
    DirtyKept(cfg, t.st(j), t.act(j), k, w);
  }

  lemma DirtyKept(cfg: Config, s: State, a: Action, k: string, w: nat)
    requires Exclusive(s) && Enabled(cfg, s, a) && k in s.queue.dirty && Holds(s, w, k)
    ensures k in Apply(cfg, s, a).queue.dirty
  {
    if a.Get? { assert s.queue.ready[0] in s.queue.ready; }
  }

  /** The holder's next move releases the key, which is then ready, or keeps holding it. */
  lemma HolderMoves(cfg: Config, s: State, a: Action, k: string, w: nat)
    requires Exclusive(s) && Enabled(cfg, s, a) && Moves(a, w) && k in s.queue.dirty && Holds(s, w, k) && !s.workers[w].pc.Got?
    ensures var t := Apply(cfg, s, a);
            if a.Finish? then k in t.queue.ready else k in t.queue.dirty && Holds(t, w, k) && !t.workers[w].pc.Got?
  {
    DirtyKept(cfg, s, a, k, w);
  }

  lemma HolderMovesAt(cfg: Config, t: Trace, k: string, w: nat, m: nat)
    requires IsRun(cfg, t) && Moves(t.act(m), w) && k in t.st(m).queue.dirty && Holds(t.st(m), w, k) && !t.st(m).workers[w].pc.Got?
    ensures if t.act(m).Finish? then k in t.st(m + 1).queue.ready
            else k in t.st(m + 1).queue.dirty && Holds(t.st(m + 1), w, k)
                 && Rank(t.st(m + 1).workers[w].pc) < Rank(t.st(m).workers[w].pc)
  {
    RunInv(cfg, t, m);
    RankDrops(cfg, t.st(m), t.act(m), w);
    HolderMoves(cfg, t.st(m), t.act(m), k, w);
  }

  lemma {:induction false} HeldDirtyIsRead(cfg: Config, t: Trace, k: string, w: nat, i: nat) returns (j: nat)
    requires Fair(cfg, t) && CachedFrom(t, k, i) && k in t.st(i).queue.dirty && Holds(t.st(i), w, k)
    ensures i <= j && ReadAt(t, k, j)
    decreases Rank(t.st(i).workers[w].pc)
  {
    RunReachable(cfg, t, i);
    if t.st(i).workers[w].pc.Got? {
      j := GotIsRead(cfg, t, k, w, i);
    } else {
      var m := NextMove(cfg, t, w, i);
      DirtyWhileHeld(cfg, t, k, w, i, m);
      HolderMovesAt(cfg, t, k, w, m);
      if t.act(m).Finish? {
        j := ReadyIsRead(cfg, t, k, m + 1);
      } else {
        j := HeldDirtyIsRead(cfg, t, k, w, m + 1);
      }
    }
  }

  lemma DirtyIsRead(cfg: Config, t: Trace, k: string, i: nat) returns (j: nat)
    requires Fair(cfg, t) && CachedFrom(t, k, i) && k in t.st(i).queue.dirty
    ensures i <= j && ReadAt(t, k, j)
  {
    RunInv(cfg, t, i);
    if k in t.st(i).queue.processing {
      var w: nat :| Holds(t.st(i), w, k);
      j := HeldDirtyIsRead(cfg, t, k, w, i);
    } else {
      j := ReadyIsRead(cfg, t, k, i);
    }
  }

  lemma {:induction false} DelayedUntil(cfg: Config, t: Trace, k: string, i: nat, j: nat) returns (m: nat)
    requires IsRun(cfg, t) && i <= j && k in t.st(i).queue.delayed && (t.act(j) == Fire(k) || k !in t.st(j).queue.delayed)
    ensures i <= m && t.act(m) == Fire(k)
    decreases j - i
  {
    m := i;
    assert StepAt(cfg, t, i);
    if t.act(i) != Fire(k) { m := DelayedUntil(cfg, t, k, i + 1, j); }
  }

  lemma DelayedIsRead(cfg: Config, t: Trace, k: string, i: nat) returns (j: nat)
    requires Fair(cfg, t) && CachedFrom(t, k, i) && k in t.st(i).queue.delayed
    ensures i <= j && ReadAt(t, k, j)
  {
    assert TimerServed(t, k, i);
    var n :| i <= n && (t.act(n) == Fire(k) || k !in t.st(n).queue.delayed);
    var m := DelayedUntil(cfg, t, k, i, n);
    assert StepAt(cfg, t, m);
    j := DirtyIsRead(cfg, t, k, m + 1);
  }

  lemma {:induction false} AddedUntil(cfg: Config, t: Trace, i: nat, j: nat) returns (m: nat)
    requires IsRun(cfg, t) && i <= j && t.st(i).poller.Added? && (t.act(j) == Enqueue || !t.st(j).poller.Added?)
    ensures i <= m && t.act(m) == Enqueue && t.st(m).poller == t.st(i).poller
    decreases j - i
  {
    m := i;
    assert StepAt(cfg, t, i);
    if t.act(i) != Enqueue { m := AddedUntil(cfg, t, i + 1, j); }
  }

  lemma AddedIsRead(cfg: Config, t: Trace, k: string, i: nat) returns (j: nat)
    requires Fair(cfg, t) && CachedFrom(t, k, i) && t.st(i).poller.Added? && t.st(i).poller.rt.subAccountID == k
    ensures i <= j && ReadAt(t, k, j)
  {
    assert PollerServed(t, i);
    var n :| i <= n && (t.act(n) == Enqueue || !t.st(n).poller.Added?);
    var m := AddedUntil(cfg, t, i, n);
    assert StepAt(cfg, t, m);
    j := DirtyIsRead(cfg, t, k, m + 1);
  }

  /** A promising worker that moves still promises, or has re-scheduled. */
  lemma PromiseMoves(cfg: Config, s: State, a: Action, k: string, w: nat)
    requires Enabled(cfg, s, a) && w < |s.workers| && Moves(a, w) && Promises(s.workers[w].pc, k) && !s.workers[w].pc.Got?
    ensures var t := Apply(cfg, s, a);
            k in t.queue.dirty || k in t.queue.delayed || (w < |t.workers| && Promises(t.workers[w].pc, k) && !t.workers[w].pc.Got?)
  {
    match a {
      case Collect(_, _, _) =>
      case Requeue(_) =>
      case ReAdd(_) =>
      case _ =>
    }
  }

  lemma PromiseMovesAt(cfg: Config, t: Trace, k: string, w: nat, m: nat)
    requires IsRun(cfg, t) && Moves(t.act(m), w)
    requires w < |t.st(m).workers| && Promises(t.st(m).workers[w].pc, k) && !t.st(m).workers[w].pc.Got?
    ensures || k in t.st(m + 1).queue.dirty || k in t.st(m + 1).queue.delayed
            || (w < |t.st(m + 1).workers| && Promises(t.st(m + 1).workers[w].pc, k)
                && Rank(t.st(m + 1).workers[w].pc) < Rank(t.st(m).workers[w].pc))
  {
    RunInv(cfg, t, m);
    RankDrops(cfg, t.st(m), t.act(m), w);
    PromiseMoves(cfg, t.st(m), t.act(m), k, w);
  }

  lemma {:induction false} PromisedIsRead(cfg: Config, t: Trace, k: string, w: nat, i: nat) returns (j: nat)
    requires Fair(cfg, t) && CachedFrom(t, k, i) && w < |t.st(i).workers| && Promises(t.st(i).workers[w].pc, k)
    ensures i <= j && ReadAt(t, k, j)
    decreases Rank(t.st(i).workers[w].pc)
  {
    RunReachable(cfg, t, i);
    if t.st(i).workers[w].pc.Got? {
      j := GotIsRead(cfg, t, k, w, i);
    } else {
      var m := NextMove(cfg, t, w, i);
      PromiseMovesAt(cfg, t, k, w, m);
      if k in t.st(m + 1).queue.dirty {
        j := DirtyIsRead(cfg, t, k, m + 1);
      } else if k in t.st(m + 1).queue.delayed {
        j := DelayedIsRead(cfg, t, k, m + 1);
      } else {
        j := PromisedIsRead(cfg, t, k, w, m + 1);
      }
    }
  }

  /** In every fair run with any number of workers, at every time: a sub-account that stays cached from then on
      is read by a worker at some later time, and so infinitely often. */
  lemma AlwaysScrapedAgain(cfg: Config, t: Trace, k: string, i: nat) returns (j: nat)
    requires Fair(cfg, t) && CachedFrom(t, k, i)
    ensures i <= j && ReadAt(t, k, j)
  {
    RunInv(cfg, t, i);
    var s := t.st(i);
    assert k in s.cache;
    assert Covered(s, k);
    if k in s.queue.dirty {
      j := DirtyIsRead(cfg, t, k, i);
    } else if k in s.queue.delayed {
      j := DelayedIsRead(cfg, t, k, i);
    } else if Promised(s, k) {
      var w: nat :| w < |s.workers| && Promises(s.workers[w].pc, k);
      j := PromisedIsRead(cfg, t, k, w, i);
    } else {
      j := AddedIsRead(cfg, t, k, i);
    }
  }
}
