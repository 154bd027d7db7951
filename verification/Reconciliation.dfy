/** What an uninterrupted poll does to the cache and the queue, stated per sub-account. */
module Reconciliation {
  import opened Domain
  import opened WorkQueue
  import opened Process

  /** Runtime i of the page is one the poll acts on, and belongs to k. */
  predicate Occurs(filtered: set<string>, page: seq<Decided>, k: string, i: nat)
  {
    i < |page| && Considered(filtered, page[i].rt) && page[i].rt.subAccountID == k
  }

  predicate LastOccurrence(filtered: set<string>, page: seq<Decided>, k: string, i: nat)
  {
    Occurs(filtered, page, k, i) && forall j :: i < j < |page| ==> !Occurs(filtered, page, k, j)
  }

  /** The item of k after n runtimes, looking at nothing but the runtimes of k. */
  function KeyTo(filtered: set<string>, found: Option<CacheItem>, page: seq<Decided>, k: string, n: nat): Option<CacheItem>
    requires n <= |page|
  {
    if n == 0 then found
    else
      var before := KeyTo(filtered, found, page, k, n - 1);
      if Occurs(filtered, page, k, n - 1) then Decide(before, page[n - 1]) else before
  }

  /** Keys do not interfere. */
  lemma {:induction false} KeyLocal(filtered: set<string>, st: PollState, page: seq<Decided>, k: string, n: nat)
    requires n <= |page|
    ensures Lookup(ReconcileTo(filtered, st, page, n).cache, k) == KeyTo(filtered, Lookup(st.cache, k), page, k, n)
  {
    if n > 0 { KeyLocal(filtered, st, page, k, n - 1); }
  }

  lemma {:induction false} Untouched(filtered: set<string>, found: Option<CacheItem>, page: seq<Decided>, k: string, n: nat, m: nat)
    requires m <= n <= |page|
    requires forall i :: m <= i < n ==> !Occurs(filtered, page, k, i)
    ensures KeyTo(filtered, found, page, k, n) == KeyTo(filtered, found, page, k, m)
  {
    if m < n { Untouched(filtered, found, page, k, n - 1, m); }
  }

  /** Once decided by its last occurrence, a key keeps that decision. */
  lemma DecidedByLast(filtered: set<string>, found: Option<CacheItem>, page: seq<Decided>, k: string, i: nat)
    requires LastOccurrence(filtered, page, k, i)
    ensures KeyTo(filtered, found, page, k, |page|) == Decide(KeyTo(filtered, found, page, k, i), page[i])
  {
    Untouched(filtered, found, page, k, |page|, i + 1);
  }

  /** An item is the one found, or a fresh record of some trackable runtime of the page. */
  lemma {:induction false} ItemOrigin(filtered: set<string>, found: Option<CacheItem>, page: seq<Decided>, k: string, n: nat)
    requires n <= |page|
    ensures var item := KeyTo(filtered, found, page, k, n);
            item.Some? && item != found ==>
              exists i :: 0 <= i < n && Occurs(filtered, page, k, i) && page[i].trackable && item.value == RecordItem(NewRecord(page[i].rt))
  {
    if n > 0 { ItemOrigin(filtered, found, page, k, n - 1); }
  }

  /** Scans survive as long as every runtime of the key is trackable under the cached shoot name. */
  lemma {:induction false} RecordSurvives(filtered: set<string>, r: Record, page: seq<Decided>, k: string, n: nat)
    requires n <= |page|
    requires forall i :: 0 <= i < n && Occurs(filtered, page, k, i) ==> page[i].trackable && page[i].rt.shootName == r.info.shootName
    ensures KeyTo(filtered, Some(RecordItem(r)), page, k, n) == Some(RecordItem(r))
  {
    if n > 0 { RecordSurvives(filtered, r, page, k, n - 1); }
  }

  /** So does a value that is no record; a poll neither replaces nor queues it. */
  lemma {:induction false} BadItemSurvives(filtered: set<string>, page: seq<Decided>, k: string, n: nat)
    requires n <= |page| && forall i :: 0 <= i < n && Occurs(filtered, page, k, i) ==> page[i].trackable
    ensures KeyTo(filtered, Some(BadItem), page, k, n) == Some(BadItem)
  {
    if n > 0 { BadItemSurvives(filtered, page, k, n - 1); }
  }

  // The whole poll.

  function Before(st: PollState, k: string): Option<CacheItem>
  {
    Lookup(st.cache, k)
  }

  function After(filtered: set<string>, st: PollState, page: seq<Decided>, k: string): Option<CacheItem>
  {
    Lookup(Reconcile(filtered, st, page).cache, k)
  }

  lemma AfterIsKey(filtered: set<string>, st: PollState, page: seq<Decided>, k: string)
    ensures After(filtered, st, page, k) ==
              if k in Reported(page, |page|) then KeyTo(filtered, Before(st, k), page, k, |page|) else None
  {
    KeyLocal(filtered, st, page, k, |page|);
  }

  lemma OccursIsReported(filtered: set<string>, page: seq<Decided>, k: string, i: nat)
    requires Occurs(filtered, page, k, i)
    ensures k in Reported(page, |page|)
  {
  }

  /** A sub-account with a runtime that is acted on: the last such runtime decides, and gives the shoot name. */
  lemma LastRuntimeDecides(filtered: set<string>, st: PollState, page: seq<Decided>, k: string, i: nat)
    requires LastOccurrence(filtered, page, k, i)
    ensures After(filtered, st, page, k).Some? <==> page[i].trackable
    ensures page[i].trackable && Before(st, k) != Some(BadItem) ==>
              After(filtered, st, page, k).value.RecordItem?
              && After(filtered, st, page, k).value.record.info.shootName == page[i].rt.shootName
  {
    AfterIsKey(filtered, st, page, k);
    OccursIsReported(filtered, page, k, i);
    DecidedByLast(filtered, Before(st, k), page, k, i);
    ItemOrigin(filtered, Before(st, k), page, k, i);
  }

  /** A sub-account seen only in skipped runtimes stays as it was; one not seen at all is dropped. */
  lemma OthersKeptOrDropped(filtered: set<string>, st: PollState, page: seq<Decided>, k: string)
    requires forall i :: 0 <= i < |page| ==> !Occurs(filtered, page, k, i)
    ensures After(filtered, st, page, k) == if k in Reported(page, |page|) then Before(st, k) else None
  {
    AfterIsKey(filtered, st, page, k);
    Untouched(filtered, Before(st, k), page, k, |page|, 0);
  }

  lemma {:induction false} FindLast(filtered: set<string>, page: seq<Decided>, k: string, n: nat) returns (last: Option<nat>)
    requires n <= |page|
    requires forall j :: n <= j < |page| ==> !Occurs(filtered, page, k, j)
    ensures match last
            case Some(i) => LastOccurrence(filtered, page, k, i)
            case None => forall j :: 0 <= j < |page| ==> !Occurs(filtered, page, k, j)
  {
    if n == 0 {
      last := None;
    } else if Occurs(filtered, page, k, n - 1) {
      last := Some(n - 1);
    } else {
      last := FindLast(filtered, page, k, n - 1);
    }
  }

  /** What a poll leaves in the cache, without reference to the order of its steps. */
  lemma CachedAfterPollIff(filtered: set<string>, st: PollState, page: seq<Decided>, k: string)
    ensures After(filtered, st, page, k).Some? <==>
              || (exists i: nat :: LastOccurrence(filtered, page, k, i) && page[i].trackable)
              || (Before(st, k).Some? && k in Reported(page, |page|)
                  && forall i :: 0 <= i < |page| ==> !Occurs(filtered, page, k, i))
  {
    var last := FindLast(filtered, page, k, |page|);
    match last {
      case Some(i) =>
        LastRuntimeDecides(filtered, st, page, k, i);
        assert forall j: nat :: LastOccurrence(filtered, page, k, j) ==> j == i;
      case None =>
        OthersKeptOrDropped(filtered, st, page, k);
        assert forall j: nat :: !LastOccurrence(filtered, page, k, j);
    }
  }

  /** The same on the fields of the runtimes: a sub-account is cached after a poll exactly when its last runtime
      outside the filter is trackable, or all its runtimes are filtered and it was cached before. */
  lemma CachedOnFields(filtered: set<string>, st: PollState, page: seq<Decided>, k: string)
    ensures k in Reconcile(filtered, st, page).cache <==>
              && k != ""
              && (|| (exists i :: && 0 <= i < |page| && page[i].rt.subAccountID == k && page[i].rt.globalAccountID !in filtered
                                  && page[i].trackable
                                  && forall j :: i < j < |page| && page[j].rt.subAccountID == k ==> page[j].rt.globalAccountID in filtered)
                  || (&& k in st.cache && (exists i :: 0 <= i < |page| && page[i].rt.subAccountID == k)
                      && forall i :: 0 <= i < |page| && page[i].rt.subAccountID == k ==> page[i].rt.globalAccountID in filtered))
  {
    CachedAfterPollIff(filtered, st, page, k);
    assert k in Reported(page, |page|) <==> k != "" && exists i :: 0 <= i < |page| && page[i].rt.subAccountID == k;
    forall i | 0 <= i < |page| ensures Occurs(filtered, page, k, i) <==>
      k != "" && page[i].rt.subAccountID == k && page[i].rt.globalAccountID !in filtered {}
    if i :| && 0 <= i < |page| && page[i].rt.subAccountID == k && page[i].rt.globalAccountID !in filtered && page[i].trackable && k != ""
            && forall j :: i < j < |page| && page[j].rt.subAccountID == k ==> page[j].rt.globalAccountID in filtered {
      assert LastOccurrence(filtered, page, k, i);
    }
  }

  lemma ScansSurvivePoll(filtered: set<string>, st: PollState, page: seq<Decided>, k: string, r: Record)
    requires Before(st, k) == Some(RecordItem(r)) && k in Reported(page, |page|)
    requires forall i :: 0 <= i < |page| && Occurs(filtered, page, k, i) ==> page[i].trackable && page[i].rt.shootName == r.info.shootName
    ensures After(filtered, st, page, k) == Some(RecordItem(r))
  {
    AfterIsKey(filtered, st, page, k);
    RecordSurvives(filtered, r, page, k, |page|);
  }

  // Queueing.

  function AddAll(q: Queue, ks: seq<string>): Queue
  {
    if ks == [] then q else Add(AddAll(q, ks[..|ks| - 1]), ks[|ks| - 1])
  }

  /** Runtime i takes its sub-account from absent to present. */
  predicate Appears(filtered: set<string>, st: PollState, page: seq<Decided>, i: nat)
    requires i < |page|
  {
    var k := page[i].rt.subAccountID;
    && KeyTo(filtered, Before(st, k), page, k, i).None?
    && KeyTo(filtered, Before(st, k), page, k, i + 1).Some?
  }

  function Appearances(filtered: set<string>, st: PollState, page: seq<Decided>, n: nat): seq<string>
    requires n <= |page|
  {
    if n == 0 then []
    else
      var ks := Appearances(filtered, st, page, n - 1);
      if Appears(filtered, st, page, n - 1) then ks + [page[n - 1].rt.subAccountID] else ks
  }

  /** Queue.Add is called exactly when a sub-account appears, in that order. */
  lemma {:induction false} QueuedExactlyOnAppearance(filtered: set<string>, st: PollState, page: seq<Decided>, n: nat)
    requires n <= |page|
    ensures ReconcileTo(filtered, st, page, n).queue == AddAll(st.queue, Appearances(filtered, st, page, n))
  {
    if n > 0 {
      QueuedExactlyOnAppearance(filtered, st, page, n - 1);
      var k := page[n - 1].rt.subAccountID;
      KeyLocal(filtered, st, page, k, n - 1);
      var ks := Appearances(filtered, st, page, n - 1);
      assert (ks + [k])[..|ks|] == ks;
    }
  }

  predicate UniqueSubAccounts(filtered: set<string>, page: seq<Decided>)
  {
    forall i, j :: 0 <= i < j < |page| && Occurs(filtered, page, page[i].rt.subAccountID, i) ==>
      !Occurs(filtered, page, page[i].rt.subAccountID, j)
  }

  /** With one runtime per sub-account, that means: absent before the poll and present after it. */
  lemma AppearsIffNew(filtered: set<string>, st: PollState, page: seq<Decided>, i: nat)
    requires i < |page| && UniqueSubAccounts(filtered, page)
    requires Occurs(filtered, page, page[i].rt.subAccountID, i)
    ensures var k := page[i].rt.subAccountID;
            Appears(filtered, st, page, i) <==> Before(st, k).None? && After(filtered, st, page, k).Some?
  {
    var k := page[i].rt.subAccountID;
    assert LastOccurrence(filtered, page, k, i);
    Untouched(filtered, Before(st, k), page, k, i, 0);
    LastRuntimeDecides(filtered, st, page, k, i);
  }

  // Polling the same page twice.

  predicate SameShoot(a: Option<CacheItem>, b: Option<CacheItem>)
  {
    && a.Some? && b.Some? && a.value.RecordItem? && b.value.RecordItem?
    && a.value.record.info.shootName == b.value.record.info.shootName
  }

  /** How the second poll, started from the result z of the first, relates to the first, started from x. */
  predicate Tracks(x: Option<CacheItem>, z: Option<CacheItem>, a: Option<CacheItem>, b: Option<CacheItem>)
  {
    || a == b
    || (b == z && (a == x || a.None? || SameShoot(a, z)))
    || (a == x && x != z && a.Some? && b.Some? && (x.value.RecordItem? ==> SameShoot(a, b)))
  }

  lemma {:induction false} SecondPollTracks(filtered: set<string>, x: Option<CacheItem>, z: Option<CacheItem>, page: seq<Decided>, k: string, n: nat)
    requires n <= |page| && z.Some? && z.value.RecordItem?
    ensures Tracks(x, z, KeyTo(filtered, x, page, k, n), KeyTo(filtered, z, page, k, n))
  {
    if n > 0 { SecondPollTracks(filtered, x, z, page, k, n - 1); }
  }

  lemma {:induction false} BadStays(filtered: set<string>, x: Option<CacheItem>, page: seq<Decided>, k: string, n: nat)
    requires n <= |page| && KeyTo(filtered, x, page, k, n) == Some(BadItem)
    ensures x == Some(BadItem)
  {
    if n > 0 { BadStays(filtered, x, page, k, n - 1); }
  }

  lemma KeyIdempotent(filtered: set<string>, x: Option<CacheItem>, page: seq<Decided>, k: string)
    ensures var z := KeyTo(filtered, x, page, k, |page|); KeyTo(filtered, z, page, k, |page|) == z
  {
    var n := |page|;
    var z := KeyTo(filtered, x, page, k, n);
    match z {
      case None =>
        var last := FindLast(filtered, page, k, n);
        match last {
          case Some(i) => DecidedByLast(filtered, x, page, k, i); DecidedByLast(filtered, z, page, k, i);
          case None => Untouched(filtered, z, page, k, n, 0);
        }
      case Some(BadItem) => BadStays(filtered, x, page, k, n);
      case Some(RecordItem(r)) => SecondPollTracks(filtered, x, z, page, k, n);
    }
  }

  /** For every page, repeated sub-accounts included, a second poll leaves the cache as the first left it. */
  lemma CacheIdempotent(filtered: set<string>, st: PollState, page: seq<Decided>)
    ensures var once := Reconcile(filtered, st, page); Reconcile(filtered, once, page).cache == once.cache
  {
    var once := Reconcile(filtered, st, page);
    var twice := Reconcile(filtered, once, page);
    forall k ensures Lookup(twice.cache, k) == Lookup(once.cache, k) {
      AfterIsKey(filtered, st, page, k);
      AfterIsKey(filtered, once, page, k);
      KeyIdempotent(filtered, Before(st, k), page, k);
    }
    SameLookup(twice.cache, once.cache);
  }

  lemma SameLookup(a: Cache, b: Cache)
    requires forall k :: Lookup(a, k) == Lookup(b, k)
    ensures a == b
  {
    forall k ensures k in a <==> k in b { assert Lookup(a, k) == Lookup(b, k); }
    forall k | k in a ensures a[k] == b[k] { assert Lookup(a, k) == Lookup(b, k); }
  }

  // Queueing in a second poll of the same page.

  /** The page lists k both as trackable and as not trackable. */
  ghost predicate Mixed(filtered: set<string>, page: seq<Decided>, k: string)
  {
    exists i: nat, j: nat :: Trackable(filtered, page, k, i) && Dropped(filtered, page, k, j)
  }

  predicate Trackable(filtered: set<string>, page: seq<Decided>, k: string, i: nat)
  {
    Occurs(filtered, page, k, i) && page[i].trackable
  }

  predicate Dropped(filtered: set<string>, page: seq<Decided>, k: string, i: nat)
  {
    Occurs(filtered, page, k, i) && !page[i].trackable
  }

  ghost predicate AppearsAt(filtered: set<string>, st: PollState, page: seq<Decided>, k: string, i: nat)
  {
    i < |page| && page[i].rt.subAccountID == k && Appears(filtered, st, page, i)
  }

  ghost predicate KeyAppears(filtered: set<string>, st: PollState, page: seq<Decided>, k: string)
  {
    exists i: nat :: AppearsAt(filtered, st, page, k, i)
  }

  lemma {:induction false} InAppearances(filtered: set<string>, st: PollState, page: seq<Decided>, n: nat, k: string)
    requires n <= |page|
    ensures k in Appearances(filtered, st, page, n) <==> exists i: nat :: i < n && AppearsAt(filtered, st, page, k, i)
  {
    if n > 0 {
      InAppearances(filtered, st, page, n - 1, k);
      assert AppearsAt(filtered, st, page, k, n - 1) <==> page[n - 1].rt.subAccountID == k && Appears(filtered, st, page, n - 1);
    }
  }

  /** A key absent at one point and present later appears in between. */
  lemma {:induction false} Transition(filtered: set<string>, st: PollState, page: seq<Decided>, k: string, from: nat, to: nat)
    requires from <= to <= |page|
    requires KeyTo(filtered, Before(st, k), page, k, from).None? && KeyTo(filtered, Before(st, k), page, k, to).Some?
    ensures KeyAppears(filtered, st, page, k)
  {
    if KeyTo(filtered, Before(st, k), page, k, to - 1).Some? {
      Transition(filtered, st, page, k, from, to - 1);
    } else {
      assert AppearsAt(filtered, st, page, k, to - 1);
    }
  }

  lemma {:induction false} StaysPresent(filtered: set<string>, found: Option<CacheItem>, page: seq<Decided>, k: string, n: nat)
    requires n <= |page| && found.Some? && forall i: nat :: i < n ==> !Dropped(filtered, page, k, i)
    ensures KeyTo(filtered, found, page, k, n).Some?
  {
    if n > 0 {
      StaysPresent(filtered, found, page, k, n - 1);
      assert !Dropped(filtered, page, k, n - 1);
    }
  }

  /** When a poll queues a key: it has a trackable runtime, and was absent before or dropped earlier in the page. */
  lemma AppearsIff(filtered: set<string>, st: PollState, page: seq<Decided>, k: string)
    ensures KeyAppears(filtered, st, page, k) <==>
              exists i: nat :: Trackable(filtered, page, k, i) &&
                (Before(st, k).None? || exists j: nat :: j < i && Dropped(filtered, page, k, j))
  {
    var found := Before(st, k);
    if i: nat :| AppearsAt(filtered, st, page, k, i) {
      assert Trackable(filtered, page, k, i);
      if found.Some? && !(exists j: nat :: j < i && Dropped(filtered, page, k, j)) { StaysPresent(filtered, found, page, k, i); }
    }
    if i: nat :| Trackable(filtered, page, k, i) && (found.None? || exists j: nat :: j < i && Dropped(filtered, page, k, j)) {
      if found.None? {
        Transition(filtered, st, page, k, 0, i + 1);
      } else {
        var j: nat :| j < i && Dropped(filtered, page, k, j);
        Transition(filtered, st, page, k, j + 1, i + 1);
      }
    }
  }

  /** A second poll queues exactly the keys the page lists both ways. */
  lemma SecondPollQueuesIff(filtered: set<string>, st: PollState, page: seq<Decided>, k: string)
    ensures KeyAppears(filtered, Reconcile(filtered, st, page), page, k) <==> Mixed(filtered, page, k)
  {
    var once := Reconcile(filtered, st, page);
    AppearsIff(filtered, once, page, k);
    var last := FindLast(filtered, page, k, |page|);
    if last.Some? {
      LastRuntimeDecides(filtered, st, page, k, last.value);
      assert page[last.value].trackable ==> Trackable(filtered, page, k, last.value);
      assert !page[last.value].trackable ==> Dropped(filtered, page, k, last.value);
    }
  }

  /** Queue.Add is not called in a second poll if and only if no sub-account is listed both ways. */
  lemma NothingQueuedIff(filtered: set<string>, st: PollState, page: seq<Decided>)
    ensures Appearances(filtered, Reconcile(filtered, st, page), page, |page|) == []
            <==> forall k :: !Mixed(filtered, page, k)
  {
    var once := Reconcile(filtered, st, page);
    var ks := Appearances(filtered, once, page, |page|);
    forall k ensures k in ks <==> Mixed(filtered, page, k) {
      InAppearances(filtered, once, page, |page|, k);
      SecondPollQueuesIff(filtered, st, page, k);
    }
    if ks != [] { assert Mixed(filtered, page, ks[0]); }
  }

  lemma {:induction false} AddAllDirty(q: Queue, ks: seq<string>)
    ensures forall k :: k in AddAll(q, ks).dirty <==> k in q.dirty || k in ks
    ensures (forall k :: k in ks ==> k in q.dirty) <==> AddAll(q, ks) == q
  {
    if ks != [] {
      var front := ks[..|ks| - 1];
      AddAllDirty(q, front);
      assert ks == front + [ks[|ks| - 1]];
      assert ks[|ks| - 1] in AddAll(q, ks).dirty;
    }
  }

  /** k is cached and not due, and the page lists it as trackable and from some point on as not trackable. */
  ghost predicate DroppedLate(filtered: set<string>, st: PollState, page: seq<Decided>, k: string)
  {
    && Before(st, k).Some? && k !in st.queue.dirty && Mixed(filtered, page, k)
    && forall i: nat, j: nat :: Trackable(filtered, page, k, i) && Dropped(filtered, page, k, j) ==> i < j
  }

  lemma LateIff(filtered: set<string>, st: PollState, page: seq<Decided>, k: string)
    ensures var once := Reconcile(filtered, st, page);
            DroppedLate(filtered, st, page, k) <==>
              k in Appearances(filtered, once, page, |page|) && k !in once.queue.dirty
  {
    var once, n := Reconcile(filtered, st, page), |page|;
    InAppearances(filtered, once, page, n, k);
    SecondPollQueuesIff(filtered, st, page, k);
    QueuedExactlyOnAppearance(filtered, st, page, n);
    AddAllDirty(st.queue, Appearances(filtered, st, page, n));
    InAppearances(filtered, st, page, n, k);
    AppearsIff(filtered, st, page, k);
  }

  /** A second poll of the same page changes nothing at all, unless some sub-account was dropped late; and only then. */
  lemma PollIdempotentIff(filtered: set<string>, st: PollState, page: seq<Decided>)
    ensures var once := Reconcile(filtered, st, page);
            Reconcile(filtered, once, page) == once <==> forall k :: !DroppedLate(filtered, st, page, k)
  {
    var once := Reconcile(filtered, st, page);
    var ks := Appearances(filtered, once, page, |page|);
    CacheIdempotent(filtered, st, page);
    QueuedExactlyOnAppearance(filtered, once, page, |page|);
    AddAllDirty(once.queue, ks);
    forall k ensures DroppedLate(filtered, st, page, k) <==> k in ks && k !in once.queue.dirty { LateIff(filtered, st, page, k); }
  }

  /** In particular with one runtime per sub-account. */
  lemma PollIdempotent(filtered: set<string>, st: PollState, page: seq<Decided>)
    requires UniqueSubAccounts(filtered, page)
    ensures var once := Reconcile(filtered, st, page); Reconcile(filtered, once, page) == once
  {
    forall k ensures !Mixed(filtered, page, k) {}
    PollIdempotentIff(filtered, st, page);
  }

  /** The shortest page that breaks it: a cached sub-account listed as trackable and then as not trackable is
      dropped by the first poll without queueing, and queued by the second. */
  lemma RepeatedSubAccountIsQueued(rt: Runtime, st: PollState)
    requires rt.subAccountID != "" && rt.subAccountID in st.cache && rt.subAccountID !in st.queue.dirty
    ensures var page := [Decided(rt, true), Decided(rt, false)]; var once := Reconcile({}, st, page);
            && DroppedLate({}, st, page, rt.subAccountID) && Reconcile({}, once, page) != once
            && once.queue == st.queue && Reconcile({}, once, page).queue == Add(st.queue, rt.subAccountID)
  {
    var k, page := rt.subAccountID, [Decided(rt, true), Decided(rt, false)];
    var once := Reconcile({}, st, page);
    assert Trackable({}, page, k, 0) && Dropped({}, page, k, 1);
    assert DroppedLate({}, st, page, k);
    PollIdempotentIff({}, st, page);
    assert ReconcileTo({}, st, page, 1) == ReconcileOne({}, ReconcileTo({}, st, page, 0), page[0]);
    assert ReconcileTo({}, st, page, 2).queue == st.queue;
    assert ReconcileTo({}, once, page, 1) == ReconcileOne({}, ReconcileTo({}, once, page, 0), page[0]);
    assert ReconcileTo({}, once, page, 2).queue == Add(st.queue, k);
  }
}
