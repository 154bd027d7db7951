/** What a poll leaves in the cache when workers run at the same time. */
module Overlap {
  import opened Domain
  import opened Process
  import opened Protocol
  import opened Safety
  import opened Reconciliation

  /** The item the runtimes passed so far give k, had nobody else touched the cache. */
  function Expected(cfg: Config, polls: Polls, k: string): Option<CacheItem>
  {
    KeyTo(cfg.filtered, Lookup(polls.start, k), polls.decided, k, |polls.decided|)
  }

  function Named(polls: Polls): set<string>
  {
    Reported(polls.decided, |polls.decided|)
  }

  /** Keys that no write-back since the poll began has left in the cache are as the poll alone would have them. */
  ghost predicate AsPolled(cfg: Config, s: State)
  {
    forall k :: k !in s.polls.restored ==> Lookup(s.cache, k) == Expected(cfg, s.polls, k)
  }

  /** The same while the keys that are not reported are being removed, `doomed` being left. */
  ghost predicate AsCleaned(cfg: Config, s: State, doomed: set<string>)
  {
    forall k :: k !in s.polls.restored ==>
      Lookup(s.cache, k) == if k in Named(s.polls) || k in doomed then Expected(cfg, s.polls, k) else None
  }

  /** The runtime by which the poller replaced a record: one of the page, of that key, found trackable. */
  ghost predicate Renamer(cfg: Config, polls: Polls, k: string, rt: Runtime)
  {
    exists i: nat :: Trackable(cfg.filtered, polls.decided, k, i) && polls.decided[i].rt == rt
  }

  /** A record written back is still cached, or has been replaced for a runtime of the page. */
  ghost predicate StillThere(cfg: Config, s: State, k: string)
    requires k in s.polls.restored
  {
    var r := s.polls.restored[k];
    match r.renamed
    case None => k in s.cache && s.cache[k] == RecordItem(r.record)
    case Some(rt) => k in s.cache && s.cache[k] == RecordItem(NewRecord(rt)) && Renamer(cfg, s.polls, k, rt)
  }

  ghost predicate OnTrack(cfg: Config, s: State)
  {
    && (forall k :: k in s.polls.restored ==> StillThere(cfg, s, k))
    && match s.poller
       case Sleeping => AsCleaned(cfg, s, {})
       case Scanning(_, valid) => valid == Named(s.polls) && AsPolled(cfg, s)
       case Read(rt, found, _, valid) =>
         && rt.subAccountID != "" && valid == Named(s.polls) + {rt.subAccountID} && AsPolled(cfg, s)
         && (rt.subAccountID !in s.polls.restored ==> found == Lookup(s.cache, rt.subAccountID))
       case Added(_, _, valid) => valid == Named(s.polls) && AsPolled(cfg, s)
       case Cleaning(doomed) => doomed !! Named(s.polls) && AsCleaned(cfg, s, doomed)
  }

  // One more runtime.

  lemma {:induction false} KeyToPrefix(filtered: set<string>, found: Option<CacheItem>, page: seq<Decided>, d: Decided, k: string, n: nat)
    requires n <= |page|
    ensures KeyTo(filtered, found, page + [d], k, n) == KeyTo(filtered, found, page, k, n)
  {
    if n > 0 { KeyToPrefix(filtered, found, page, d, k, n - 1); }
  }

  lemma PassedKey(cfg: Config, polls: Polls, d: Decided, restored: map<string, Restored>, k: string)
    ensures Expected(cfg, Passed(polls, d, restored), k) ==
              if Considered(cfg.filtered, d.rt) && d.rt.subAccountID == k then Decide(Expected(cfg, polls, k), d)
              else Expected(cfg, polls, k)
  {
    KeyToPrefix(cfg.filtered, Lookup(polls.start, k), polls.decided, d, k, |polls.decided|);
  }

  lemma PassedNames(polls: Polls, d: Decided, restored: map<string, Restored>)
    ensures Named(Passed(polls, d, restored)) == Named(polls) + if d.rt.subAccountID == "" then {} else {d.rt.subAccountID}
  {
    var more := polls.decided + [d];
    assert more[|polls.decided|] == d;
    forall k | k in Named(polls) ensures k in Named(Passed(polls, d, restored)) {
      var i :| 0 <= i < |polls.decided| && polls.decided[i].rt.subAccountID == k;
      assert more[i].rt.subAccountID == k;
    }
  }

  /** The decision taken on a runtime, if its key is as it was when read, or is removed. */
  lemma DecisionOnKey(cfg: Config, s: State, b: bool, k: string)
    requires s.poller.Read? && s.poller.rt.subAccountID != ""
    requires s.poller.rt.subAccountID == k && !Removes(cfg, s, b) ==> s.poller.found == Lookup(s.cache, k)
    ensures var d := Decided(s.poller.rt, b);
            Lookup(DecidedCache(cfg, s, b), k) ==
              if Considered(cfg.filtered, d.rt) && d.rt.subAccountID == k then Decide(Lookup(s.cache, k), d) else Lookup(s.cache, k)
  {
  }

  lemma RenamerKept(cfg: Config, polls: Polls, d: Decided, restored: map<string, Restored>, k: string, rt: Runtime)
    requires Renamer(cfg, polls, k, rt) || (Considered(cfg.filtered, d.rt) && d.rt.subAccountID == k && d == Decided(rt, true))
    ensures Renamer(cfg, Passed(polls, d, restored), k, rt)
  {
    var more := Passed(polls, d, restored).decided;
    if Renamer(cfg, polls, k, rt) {
      var i: nat :| Trackable(cfg.filtered, polls.decided, k, i) && polls.decided[i].rt == rt;
      assert more[i] == polls.decided[i] && Trackable(cfg.filtered, more, k, i);
    } else {
      assert more[|polls.decided|] == d && Trackable(cfg.filtered, more, k, |polls.decided|);
    }
  }

  lemma RestoredDecided(cfg: Config, s: State, b: bool, k: string)
    requires OnTrack(cfg, s) && Enabled(cfg, s, DecideOn(b)) && k in Apply(cfg, s, DecideOn(b)).polls.restored
    ensures StillThere(cfg, Apply(cfg, s, DecideOn(b)), k)
  {
    var t, d := Apply(cfg, s, DecideOn(b)), Decided(s.poller.rt, b);
    assert k in s.polls.restored && StillThere(cfg, s, k);
    if t.polls.restored[k].renamed.Some? {
      RenamerKept(cfg, s.polls, d, RestoredAfter(cfg, s, b), k, t.polls.restored[k].renamed.value);
    }
  }

  lemma OtherDecided(cfg: Config, s: State, b: bool, k: string)
    requires OnTrack(cfg, s) && Enabled(cfg, s, DecideOn(b)) && k !in Apply(cfg, s, DecideOn(b)).polls.restored
    ensures Lookup(Apply(cfg, s, DecideOn(b)).cache, k) == Expected(cfg, Apply(cfg, s, DecideOn(b)).polls, k)
  {
    PassedKey(cfg, s.polls, Decided(s.poller.rt, b), RestoredAfter(cfg, s, b), k);
    assert k in s.polls.restored ==> StillThere(cfg, s, k);
    DecisionOnKey(cfg, s, b, k);
  }

  lemma DecideStep(cfg: Config, s: State, b: bool)
    requires OnTrack(cfg, s) && Enabled(cfg, s, DecideOn(b))
    ensures OnTrack(cfg, Apply(cfg, s, DecideOn(b)))
  {
    var t := Apply(cfg, s, DecideOn(b));
    assert t.poller.Scanning? || t.poller.Added?;
    assert t.poller.valid == s.poller.valid;
    PassedNames(s.polls, Decided(s.poller.rt, b), RestoredAfter(cfg, s, b));
    assert t.poller.valid == Named(t.polls);
    forall k | k !in t.polls.restored ensures Lookup(t.cache, k) == Expected(cfg, t.polls, k) { OtherDecided(cfg, s, b, k); }
    forall k | k in t.polls.restored ensures StillThere(cfg, t, k) { RestoredDecided(cfg, s, b, k); }
  }

  lemma NextStep(cfg: Config, s: State)
    requires OnTrack(cfg, s) && Enabled(cfg, s, NextRuntime)
    ensures OnTrack(cfg, Apply(cfg, s, NextRuntime))
  {
    var t, d := Apply(cfg, s, NextRuntime), Decided(s.poller.todo[0], false);
    if d.rt.subAccountID == "" {
      PassedNames(s.polls, d, s.polls.restored);
      forall k | k !in t.polls.restored ensures Lookup(t.cache, k) == Expected(cfg, t.polls, k) {
        PassedKey(cfg, s.polls, d, s.polls.restored, k);
      }
      forall k | k in t.polls.restored ensures StillThere(cfg, t, k) {
        assert StillThere(cfg, s, k);
        if t.polls.restored[k].renamed.Some? {
          RenamerKept(cfg, s.polls, d, s.polls.restored, k, t.polls.restored[k].renamed.value);
        }
      }
    } else {
      assert forall k :: k in t.polls.restored ==> StillThere(cfg, s, k);
    }
  }

  lemma CleanUpStep(cfg: Config, s: State, a: Action)
    requires OnTrack(cfg, s) && Enabled(cfg, s, a) && (a.BeginCleanup? || a.CleanUp? || a.EndCleanup?)
    ensures OnTrack(cfg, Apply(cfg, s, a))
  {
    var t := Apply(cfg, s, a);
    assert t.polls.decided == s.polls.decided && t.polls.start == s.polls.start;
    forall k | k in t.polls.restored ensures StillThere(cfg, t, k) { assert StillThere(cfg, s, k); }
  }

  /** A worker touches the cache only to write back. */
  lemma WorkerStep(cfg: Config, s: State, a: Action)
    requires OnTrack(cfg, s) && Enabled(cfg, s, a)
    requires a.Fire? || a.Get? || a.ReadCache? || a.Fail? || a.Collect? || a.Requeue? || a.Finish? || a.ReAdd?
    ensures OnTrack(cfg, Apply(cfg, s, a))
  {
    var t := Apply(cfg, s, a);
    assert t.cache == s.cache && t.polls == s.polls && t.poller == s.poller;
    assert forall k :: k in t.polls.restored ==> StillThere(cfg, s, k);
  }

  lemma WriteBackStep(cfg: Config, s: State, w: nat)
    requires OnTrack(cfg, s) && Enabled(cfg, s, WriteBack(w))
    ensures OnTrack(cfg, Apply(cfg, s, WriteBack(w)))
  {
    var t := Apply(cfg, s, WriteBack(w));
    assert t.poller == s.poller && t.polls == s.polls.(restored := t.polls.restored);
    forall k | k in t.polls.restored ensures StillThere(cfg, t, k) { assert k in s.polls.restored ==> StillThere(cfg, s, k); }
    assert forall k :: k !in t.polls.restored ==> Lookup(t.cache, k) == Lookup(s.cache, k);
    assert forall k :: Expected(cfg, t.polls, k) == Expected(cfg, s.polls, k);
  }

  lemma OnTrackStep(cfg: Config, s: State, a: Action)
    requires OnTrack(cfg, s) && Enabled(cfg, s, a)
    ensures OnTrack(cfg, Apply(cfg, s, a))
  {
    match a {
      case StartPoll(_) =>
      case NextRuntime => NextStep(cfg, s);
      case DecideOn(b) => DecideStep(cfg, s, b);
      case Enqueue => assert forall k :: k in s.polls.restored ==> StillThere(cfg, s, k);
      case BeginCleanup => CleanUpStep(cfg, s, a);
      case CleanUp(_) => CleanUpStep(cfg, s, a);
      case EndCleanup => CleanUpStep(cfg, s, a);
      case WriteBack(w) => WriteBackStep(cfg, s, w);
      case _ => WorkerStep(cfg, s, a);
    }
  }

  lemma {:induction false} OnTrackRun(cfg: Config, s: State, run: seq<Action>)
    requires OnTrack(cfg, s) && Legal(cfg, s, run)
    ensures OnTrack(cfg, Run(cfg, s, run))
    decreases |run|
  {
    if run != [] {
      OnTrackStep(cfg, s, run[0]);
      OnTrackRun(cfg, Apply(cfg, s, run[0]), run[1..]);
    }
  }

  lemma ReachableOnTrack(cfg: Config, s: State)
    requires Reachable(cfg, s)
    ensures OnTrack(cfg, s)
  {
    var n: nat, run :| Leads(cfg, Init(n), run, s);
    OnTrackRun(cfg, Init(n), run);
  }

  // Over every run.

  /** However workers interleave with it, a poll does to a key what it would have done alone, unless a worker
      writes the key back meanwhile and the poll does not take it out again. */
  lemma PollAsIfAlone(cfg: Config, s: State, k: string)
    requires Reachable(cfg, s) && s.poller.Sleeping? && k !in s.polls.restored
    ensures Lookup(s.cache, k) == After(cfg.filtered, PollState(s.polls.start, s.queue), s.polls.decided, k)
  {
    ReachableOnTrack(cfg, s);
    AfterIsKey(cfg.filtered, PollState(s.polls.start, s.queue), s.polls.decided, k);
  }

  /** To a key that was written back and not taken out again: the poll leaves the last record written back, unless
      it replaced that record for a trackable runtime of the page. */
  lemma WrittenBackStays(cfg: Config, s: State, k: string)
    requires Reachable(cfg, s) && k in s.polls.restored
    ensures k in s.cache
    ensures s.polls.restored[k].renamed.None? ==> s.cache[k] == RecordItem(s.polls.restored[k].record)
    ensures s.polls.restored[k].renamed.Some? ==>
              exists i: nat :: Trackable(cfg.filtered, s.polls.decided, k, i) && s.cache[k] == RecordItem(NewRecord(s.polls.decided[i].rt))
  {
    ReachableOnTrack(cfg, s);
    assert StillThere(cfg, s, k);
    if s.polls.restored[k].renamed.Some? {
      var i: nat :| Trackable(cfg.filtered, s.polls.decided, k, i) && s.polls.decided[i].rt == s.polls.restored[k].renamed.value;
    }
  }

  /** The poller has found a record of k under another shoot name than the runtime it acts on, and finds it trackable. */
  predicate ShootChanged(s: State, a: Action, k: string)
  {
    && a == DecideOn(true) && s.poller.Read? && s.poller.rt.subAccountID == k
    && s.poller.found.Some? && s.poller.found.value.RecordItem?
    && s.poller.found.value.record.info.shootName != s.poller.rt.shootName
  }

  /** Apart from write-backs, a cached item is replaced only by a poller that found it under another shoot name,
      and then by an empty record of the runtime; in particular Cache.Add never replaces what a worker wrote. */
  lemma ReplacedOnlyOnRename(cfg: Config, s: State, a: Action, k: string)
    requires Reachable(cfg, s) && Enabled(cfg, s, a) && !a.WriteBack?
    requires k in s.cache && k in Apply(cfg, s, a).cache && Apply(cfg, s, a).cache[k] != s.cache[k]
    ensures ShootChanged(s, a, k) && Apply(cfg, s, a).cache[k] == RecordItem(Record(InfoOf(s.poller.rt), map[]))
  {
    CacheChange(cfg, s, a, k);
  }

  /** What a decision of the poller does to a cached or absent key, whatever workers did since it read the cache:
      a key leaves only if it was found, and a key that is there is replaced only if it was found under another
      shoot name. */
  lemma DecisionOnFields(cfg: Config, s: State, b: bool, k: string)
    requires Reachable(cfg, s) && Enabled(cfg, s, DecideOn(b))
    ensures var t := Apply(cfg, s, DecideOn(b));
            var acts := s.poller.rt.subAccountID == k && s.poller.rt.globalAccountID !in cfg.filtered;
            && (k in s.cache ==> (k !in t.cache <==> acts && !b && s.poller.found.Some?))
            && (k !in s.cache ==> (k in t.cache <==> acts && b))
            && (k !in s.cache && k in t.cache ==> t.cache[k] == RecordItem(Record(InfoOf(s.poller.rt), map[])))
            && (acts && ShootChanged(s, DecideOn(b), k) ==> k in t.cache && t.cache[k] == RecordItem(Record(InfoOf(s.poller.rt), map[])))
            && (k in s.cache && k in t.cache && !(acts && ShootChanged(s, DecideOn(b), k)) ==> t.cache[k] == s.cache[k])
  {
    ReachableInv(cfg, s);
    DecidedOnFields(cfg, s, b, k);
  }

  lemma DecidedOnFields(cfg: Config, s: State, b: bool, k: string)
    requires s.poller.Read? && PollerSane(s)
    ensures var cache := DecidedCache(cfg, s, b);
            var acts := s.poller.rt.subAccountID == k && s.poller.rt.globalAccountID !in cfg.filtered;
            && (k in s.cache ==> (k !in cache <==> acts && !b && s.poller.found.Some?))
            && (k !in s.cache ==> (k in cache <==> acts && b))
            && (k !in s.cache && k in cache ==> cache[k] == RecordItem(Record(InfoOf(s.poller.rt), map[])))
            && (acts && ShootChanged(s, DecideOn(b), k) ==> k in cache && cache[k] == RecordItem(Record(InfoOf(s.poller.rt), map[])))
            && (k in s.cache && k in cache && !(acts && ShootChanged(s, DecideOn(b), k)) ==> cache[k] == s.cache[k])
  {
  }

  /** The poller goes on to call Queue.Add exactly when it has brought an absent key into the cache. */
  lemma QueuesWhatItAdds(cfg: Config, s: State, b: bool)
    requires Reachable(cfg, s) && Enabled(cfg, s, DecideOn(b))
    ensures var k, t := s.poller.rt.subAccountID, Apply(cfg, s, DecideOn(b));
            && (t.poller.Added? <==> k !in s.cache && k in t.cache)
            && (t.poller.Added? ==> t.poller.rt.subAccountID == k)
  {
    ReachableInv(cfg, s);
    DecidedAdds(cfg, s, b);
  }

  lemma DecidedAdds(cfg: Config, s: State, b: bool)
    requires s.poller.Read? && PollerSane(s)
    ensures var k, poller, cache := s.poller.rt.subAccountID, DecidedPoller(cfg, s, b), DecidedCache(cfg, s, b);
            (poller.Added? <==> k !in s.cache && k in cache) && (poller.Added? ==> poller.rt.subAccountID == k)
  {
  }

  /** The poll did not report k, or the last verdict it reached on k was that it is not trackable. */
  ghost predicate Unwanted(cfg: Config, polls: Polls, k: string)
  {
    || k !in Named(polls)
    || exists i: nat :: LastOccurrence(cfg.filtered, polls.decided, k, i) && !polls.decided[i].trackable
  }

  /** The step takes k out of the cache. */
  predicate Drops(cfg: Config, s: State, a: Action, k: string)
  {
    match a
    case DecideOn(b) => s.poller.Read? && s.poller.rt.subAccountID == k && Removes(cfg, s, b)
    case CleanUp(x) => x == k
    case _ => false
  }

  /** In the whole run no poll begins and k is not taken out of the cache. */
  ghost predicate Undisturbed(cfg: Config, s: State, run: seq<Action>, k: string)
    requires Legal(cfg, s, run)
    decreases |run|
  {
    run == [] ||
    (!run[0].StartPoll? && !Drops(cfg, s, run[0], k) && Undisturbed(cfg, Apply(cfg, s, run[0]), run[1..], k))
  }

  /** A worker that holds k writes it back, and from there on the run is undisturbed. */
  ghost predicate BroughtBack(cfg: Config, s: State, run: seq<Action>, k: string)
    requires Legal(cfg, s, run)
    decreases |run|
  {
    run != [] &&
    var t := Apply(cfg, s, run[0]);
    || (run[0].WriteBack? && Holds(s, run[0].w, k) && Undisturbed(cfg, t, run[1..], k))
    || BroughtBack(cfg, t, run[1..], k)
  }

  lemma RestoredStep(cfg: Config, s: State, a: Action, k: string)
    requires OwnKeys(s) && Enabled(cfg, s, a)
    ensures k in Apply(cfg, s, a).polls.restored <==>
              || (k in s.polls.restored && !a.StartPoll? && !Drops(cfg, s, a, k))
              || (a.WriteBack? && Holds(s, a.w, k))
  {
    match a {
      case DecideOn(_) =>
      case CleanUp(_) =>
      case WriteBack(_) =>
      case _ =>
    }
  }

  lemma {:induction false} RestoredIff(cfg: Config, s: State, run: seq<Action>, k: string)
    requires Inv(cfg, s) && Legal(cfg, s, run)
    ensures k in Run(cfg, s, run).polls.restored <==>
              (k in s.polls.restored && Undisturbed(cfg, s, run, k)) || BroughtBack(cfg, s, run, k)
    decreases |run|
  {
    if run != [] {
      InvStep(cfg, s, run[0]);
      RestoredStep(cfg, s, run[0], k);
      RestoredIff(cfg, Apply(cfg, s, run[0]), run[1..], k);
    }
  }

  /** A key that a poll did not want is cached when the poll is over if and only if a worker that held it wrote it
      back after the poll began and the poll did not take it out after that. */
  lemma LeftBehindIff(cfg: Config, n: nat, run: seq<Action>, s: State, k: string)
    requires Leads(cfg, Init(n), run, s) && s.poller.Sleeping? && Unwanted(cfg, s.polls, k)
    ensures k in s.cache <==> BroughtBack(cfg, Init(n), run, k)
  {
    assert Reachable(cfg, s);
    ReachableOnTrack(cfg, s);
    if k !in s.polls.restored {
      PollAsIfAlone(cfg, s, k);
      CachedAfterPollIff(cfg.filtered, PollState(s.polls.start, s.queue), s.polls.decided, k);
    }
    InvInit(cfg, n);
    RestoredIff(cfg, Init(n), run, k);
  }

  /** In the whole run nobody takes k out of the cache, writes it back or replaces it, and no poll begins. */
  ghost predicate Untouched(cfg: Config, s: State, run: seq<Action>, k: string)
    requires Legal(cfg, s, run)
    decreases |run|
  {
    run == [] ||
    (&& !run[0].StartPoll? && !Drops(cfg, s, run[0], k) && !Replaces(cfg, s, run[0], k)
     && !(run[0].WriteBack? && Holds(s, run[0].w, k)) && Untouched(cfg, Apply(cfg, s, run[0]), run[1..], k))
  }

  /** The poller replaces the record of k under a new shoot name. */
  predicate Replaces(cfg: Config, s: State, a: Action, k: string)
  {
    ShootChanged(s, a, k) && s.poller.rt.globalAccountID !in cfg.filtered
  }

  /** A worker writes r back to k, and from there on the run leaves k alone. */
  ghost predicate LastWritten(cfg: Config, s: State, run: seq<Action>, k: string, r: Record)
    requires Legal(cfg, s, run)
    decreases |run|
  {
    run != [] &&
    var t := Apply(cfg, s, run[0]);
    || (run[0].WriteBack? && s.workers[run[0].w].pc == Collected(k, r) && Untouched(cfg, t, run[1..], k))
    || LastWritten(cfg, t, run[1..], k, r)
  }

  predicate RestoredAs(s: State, k: string, r: Record)
  {
    k in s.polls.restored && s.polls.restored[k] == Restored(r, None)
  }

  lemma RestoredAsDecided(cfg: Config, s: State, b: bool, k: string, r: Record)
    requires Enabled(cfg, s, DecideOn(b))
    ensures RestoredAs(Apply(cfg, s, DecideOn(b)), k, r) <==>
              RestoredAs(s, k, r) && !Drops(cfg, s, DecideOn(b), k) && !Replaces(cfg, s, DecideOn(b), k)
  {
    assert Apply(cfg, s, DecideOn(b)).polls.restored == RestoredAfter(cfg, s, b);
  }

  lemma RestoredAsStep(cfg: Config, s: State, a: Action, k: string, r: Record)
    requires OwnKeys(s) && Enabled(cfg, s, a)
    ensures RestoredAs(Apply(cfg, s, a), k, r) <==>
              || (RestoredAs(s, k, r) && !a.StartPoll? && !Drops(cfg, s, a, k) && !Replaces(cfg, s, a, k)
                  && !(a.WriteBack? && Holds(s, a.w, k)))
              || (a.WriteBack? && s.workers[a.w].pc == Collected(k, r))
  {
    match a {
      case DecideOn(b) => RestoredAsDecided(cfg, s, b, k, r);
      case StartPoll(_) =>
      case CleanUp(_) =>
      case WriteBack(_) =>
      case _ => assert Apply(cfg, s, a).polls.restored == s.polls.restored;
    }
  }

  lemma {:induction false} RestoredAsIff(cfg: Config, s: State, run: seq<Action>, k: string, r: Record)
    requires Inv(cfg, s) && Legal(cfg, s, run)
    ensures RestoredAs(Run(cfg, s, run), k, r) <==>
              (RestoredAs(s, k, r) && Untouched(cfg, s, run, k)) || LastWritten(cfg, s, run, k, r)
    decreases |run|
  {
    if run != [] {
      InvStep(cfg, s, run[0]);
      RestoredAsStep(cfg, s, run[0], k, r);
      RestoredAsIff(cfg, Apply(cfg, s, run[0]), run[1..], k, r);
    }
  }

  /** What a worker writes back during a poll is what the cache holds, until a write-back, a removal or a change of
      the shoot name: also if the poller had read the key as absent before. */
  lemma LastWriteBackHolds(cfg: Config, n: nat, run: seq<Action>, s: State, k: string, r: Record)
    requires Leads(cfg, Init(n), run, s) && LastWritten(cfg, Init(n), run, k, r)
    ensures k in s.cache && s.cache[k] == RecordItem(r)
  {
    assert Reachable(cfg, s);
    InvInit(cfg, n);
    RestoredAsIff(cfg, Init(n), run, k, r);
    WrittenBackStays(cfg, s, k);
  }
}
