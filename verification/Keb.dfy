/** Reading all pages of the runtime list from the Kyma Environment Broker. */
module Keb {
  import opened Domain
  import opened Sums

  datatype RuntimesPage = RuntimesPage(data: seq<Runtime>, count: int, totalCount: int)

  /** Answer to the request for each page number of one poll; None is a request that failed after its retries. */
  type Server = nat -> Option<RuntimesPage>

  ghost predicate Answers(server: Server, n: nat)
  {
    forall i :: 1 <= i <= n ==> server(i).Some?
  }

  ghost function Data(server: Server, n: nat): seq<Runtime>
    requires Answers(server, n)
  {
    if n == 0 then [] else Data(server, n - 1) + server(n).value.data
  }

  ghost function Seen(server: Server, n: nat): int
    requires Answers(server, n)
  {
    if n == 0 then 0 else Seen(server, n - 1) + server(n).value.count
  }

  /** After page n the records seen so far fall short of the announced total. */
  ghost predicate WantsMore(server: Server, n: nat)
  {
    1 <= n && Answers(server, n) && Seen(server, n) < server(n).value.totalCount
  }

  /** Page `last` is the one that ends the loop, by a failure or by reaching the total. */
  ghost predicate StopsAt(server: Server, last: nat)
  {
    && 1 <= last
    && (forall i :: 1 <= i < last ==> WantsMore(server, i))
    && !WantsMore(server, last)
  }

  /** What there is to see of a call once its first `requests` requests are answered. */
  datatype Fetch = Unfinished | Failed | Done(page: RuntimesPage)

  /** The call is still asking, or it ended at page `last`: in a failure, or with the concatenated pages. */
  ghost predicate EndsWith(server: Server, last: nat, r: Fetch)
  {
    && StopsAt(server, last)
    && if server(last).None? then r == Failed
       else Answers(server, last) && r == Done(RuntimesPage(Data(server, last), |Data(server, last)|, Seen(server, last)))
  }

  ghost predicate Yields(server: Server, requests: nat, r: Fetch)
  {
    if r == Unfinished then forall n :: 1 <= n <= requests ==> WantsMore(server, n)
    else exists last :: 1 <= last <= requests && EndsWith(server, last, r)
  }

  /** The loop need not end, so the call is followed for a number of requests. */
  method GetAllRuntimes(server: Server, requests: nat) returns (r: Fetch)
    ensures Yields(server, requests, r)
  {
    var morePages, pageNum, recordsSeen := true, 1, 0;
    var final := RuntimesPage([], 0, 0);
    while morePages && pageNum <= requests
      invariant 1 <= pageNum
      invariant forall i :: 1 <= i < pageNum ==> WantsMore(server, i)
      invariant if morePages
                then pageNum <= requests + 1 && Answers(server, pageNum - 1)
                     && recordsSeen == Seen(server, pageNum - 1) && final.data == Data(server, pageNum - 1)
                else pageNum <= requests && !WantsMore(server, pageNum) && Answers(server, pageNum)
                     && recordsSeen == Seen(server, pageNum) && final.data == Data(server, pageNum)
      invariant final.count == |final.data|
      decreases morePages, requests + 1 - pageNum
    {
      var page := server(pageNum);
      if page.None? {
        assert EndsWith(server, pageNum, Failed);
        return Failed;
      }
      assert Answers(server, pageNum);
      final := final.(data := final.data + page.value.data);
      final := final.(count := |final.data|);
      recordsSeen := recordsSeen + page.value.count;
      if recordsSeen >= page.value.totalCount {
        morePages := false;
        continue;
      }
      pageNum := pageNum + 1;
    }
    if morePages { return Unfinished; }
    r := Done(final.(totalCount := recordsSeen));
    assert EndsWith(server, pageNum, r);
  }

  /** The answers determine what is seen. */
  lemma YieldsOnce(server: Server, requests: nat, r: Fetch, q: Fetch)
    requires Yields(server, requests, r) && Yields(server, requests, q)
    ensures r == q
  {
    if r != Unfinished {
      var i :| 1 <= i <= requests && EndsWith(server, i, r);
      if q != Unfinished {
        var j :| 1 <= j <= requests && EndsWith(server, j, q);
        assert i == j;
      }
    }
  }

  // The outcome on the pages themselves, for any server.

  function Concat(pages: seq<RuntimesPage>): seq<Runtime>
  {
    if pages == [] then [] else Concat(pages[..|pages| - 1]) + pages[|pages| - 1].data
  }

  /** The first n answers are these pages. */
  ghost predicate Sent(server: Server, pages: seq<RuntimesPage>)
  {
    forall i :: 0 <= i < |pages| ==> server(i + 1) == Some(pages[i])
  }

  lemma {:induction false} PagesSent(server: Server, n: nat) returns (pages: seq<RuntimesPage>)
    requires Answers(server, n)
    ensures |pages| == n && Sent(server, pages)
  {
    pages := [];
    if n > 0 {
      pages := PagesSent(server, n - 1);
      pages := pages + [server(n).value];
    }
  }

  lemma {:induction false} ReadPages(server: Server, pages: seq<RuntimesPage>, n: nat, count: RuntimesPage -> int)
    requires n <= |pages| && Sent(server, pages) && Answers(server, n) && forall p :: count(p) == p.count
    ensures Data(server, n) == Concat(pages[..n]) && Seen(server, n) == IntSum(pages[..n], count)
  {
    if n > 0 {
      ReadPages(server, pages, n - 1, count);
      assert pages[..n][..n - 1] == pages[..n - 1];
      assert server(n - 1 + 1) == Some(pages[n - 1]);
    }
  }

  /** A finished call returns the data of the pages one after the other, their number of runtimes, and the sum of
      the counts the pages state, which is where the announced total is first reached. */
  lemma DoneOnPages(server: Server, requests: nat, r: Fetch, count: RuntimesPage -> int) returns (pages: seq<RuntimesPage>)
    requires Yields(server, requests, r) && r.Done? && forall p :: count(p) == p.count
    ensures 1 <= |pages| <= requests && Sent(server, pages)
    ensures r.page == RuntimesPage(Concat(pages), |Concat(pages)|, IntSum(pages, count))
    ensures pages[|pages| - 1].totalCount <= IntSum(pages, count)
    ensures forall n :: 1 <= n < |pages| ==> IntSum(pages[..n], count) < pages[n - 1].totalCount
  {
    var last :| 1 <= last <= requests && EndsWith(server, last, r);
    pages := PagesSent(server, last);
    ReadPages(server, pages, last, count);
    assert pages[..last] == pages;
    forall n | 1 <= n < |pages| ensures IntSum(pages[..n], count) < pages[n - 1].totalCount {
      assert WantsMore(server, n);
      ReadPages(server, pages, n, count);
    }
    assert !WantsMore(server, last) && server(last - 1 + 1) == Some(pages[last - 1]);
  }

  // A truthful server: `all` cut into consecutive pages, which may be empty; what it answers past the end is open.

  ghost predicate PageOf(server: Server, all: seq<Runtime>, cut: nat -> nat, n: nat)
  {
    && cut(n) <= cut(n + 1) <= |all|
    && server(n + 1) == Some(RuntimesPage(all[cut(n)..cut(n + 1)], cut(n + 1) - cut(n), |all|))
  }

  ghost predicate Splits(server: Server, all: seq<Runtime>, cut: nat -> nat)
  {
    && cut(0) == 0
    && forall n: nat {:trigger PageOf(server, all, cut, n)} :: n == 0 || cut(n) < |all| ==> PageOf(server, all, cut, n)
  }

  /** The first n pages reach the end of the list. */
  ghost predicate ReachedBy(all: seq<Runtime>, cut: nat -> nat, n: nat)
  {
    exists i :: 1 <= i <= n && cut(i) == |all|
  }

  /** After n pages the first cut(n) runtimes have been read. */
  ghost predicate ReadSoFar(server: Server, all: seq<Runtime>, cut: nat -> nat, n: nat)
  {
    && cut(n) <= |all| && Answers(server, n)
    && Data(server, n) == all[..cut(n)] && Seen(server, n) == cut(n)
  }

  lemma OnePage(server: Server, all: seq<Runtime>, cut: nat -> nat, n: nat)
    requires ReadSoFar(server, all, cut, n) && PageOf(server, all, cut, n)
    ensures ReadSoFar(server, all, cut, n + 1)
    ensures WantsMore(server, n + 1) <==> cut(n + 1) < |all|
  {
    assert Answers(server, n + 1);
    assert all[..cut(n)] + all[cut(n)..cut(n + 1)] == all[..cut(n + 1)];
  }

  /** As long as the end is not reached, the pages read are the beginning of the list, and more are wanted. */
  lemma {:induction false} ReadTo(server: Server, all: seq<Runtime>, cut: nat -> nat, n: nat)
    requires Splits(server, all, cut) && (n == 0 || !ReachedBy(all, cut, n - 1))
    ensures ReadSoFar(server, all, cut, n)
    ensures forall i :: 1 <= i < n ==> WantsMore(server, i)
    ensures n > 0 ==> (WantsMore(server, n) <==> cut(n) < |all|)
  {
    if n > 0 {
      ReadTo(server, all, cut, n - 1);
      assert PageOf(server, all, cut, n - 1);
      OnePage(server, all, cut, n - 1);
    }
  }

  lemma {:induction false} FirstReached(all: seq<Runtime>, cut: nat -> nat, n: nat) returns (last: nat)
    requires ReachedBy(all, cut, n)
    ensures 1 <= last <= n && cut(last) == |all| && !ReachedBy(all, cut, last - 1)
  {
    last := n;
    if ReachedBy(all, cut, n - 1) { last := FirstReached(all, cut, n - 1); }
  }

  /** Against every truthful server, and after any number of requests: the whole list in order with both counts
      its length, or, exactly when no page has reached the end yet, still asking. */
  lemma PaginationExact(server: Server, all: seq<Runtime>, cut: nat -> nat, requests: nat, r: Fetch)
    requires Splits(server, all, cut) && Yields(server, requests, r)
    ensures r == if ReachedBy(all, cut, requests) then Done(RuntimesPage(all, |all|, |all|)) else Unfinished
  {
    if ReachedBy(all, cut, requests) {
      var last := FirstReached(all, cut, requests);
      ReadTo(server, all, cut, last);
      assert all[..|all|] == all;
      assert EndsWith(server, last, Done(RuntimesPage(all, |all|, |all|)));
      YieldsOnce(server, requests, r, Done(RuntimesPage(all, |all|, |all|)));
    } else {
      forall n | 1 <= n <= requests ensures WantsMore(server, n) {
        assert !ReachedBy(all, cut, n - 1);
        ReadTo(server, all, cut, n);
        assert cut(n) != |all|;
      }
      YieldsOnce(server, requests, r, Unfinished);
    }
  }

  /** Hence the loop ends if and only if some page reaches the end of the list. */
  lemma TerminatesIff(server: Server, all: seq<Runtime>, cut: nat -> nat)
    requires Splits(server, all, cut)
    ensures (exists last :: StopsAt(server, last)) <==> (exists n :: 1 <= n && cut(n) == |all|)
  {
    if n :| 1 <= n && cut(n) == |all| {
      var last := FirstReached(all, cut, n);
      ReadTo(server, all, cut, last);
      assert StopsAt(server, last);
    }
    if last :| StopsAt(server, last) && !ReachedBy(all, cut, last) {
      ReadTo(server, all, cut, last);
      assert false;
    }
  }

  /** Below the end of the list every page brings something. */
  ghost predicate Advances(all: seq<Runtime>, cut: nat -> nat, n: nat)
  {
    cut(n) < |all| ==> cut(n) < cut(n + 1)
  }

  lemma {:induction false} AdvancesTo(server: Server, all: seq<Runtime>, cut: nat -> nat, n: nat)
    requires Splits(server, all, cut) && forall i: nat {:trigger Advances(all, cut, i)} :: Advances(all, cut, i)
    ensures ReachedBy(all, cut, n) || n <= cut(n) < |all| || n == 0
  {
    if n > 0 {
      AdvancesTo(server, all, cut, n - 1);
      if ReachedBy(all, cut, n - 1) {
        assert ReachedBy(all, cut, n);
      } else {
        assert PageOf(server, all, cut, n - 1) && Advances(all, cut, n - 1);
        assert cut(n) == |all| ==> ReachedBy(all, cut, n);
      }
    }
  }

  /** Non-empty pages are enough: one request per runtime, and at least one, reads the whole list. */
  lemma PaginationComplete(server: Server, all: seq<Runtime>, cut: nat -> nat, requests: nat, r: Fetch)
    requires Splits(server, all, cut) && forall n: nat {:trigger Advances(all, cut, n)} :: Advances(all, cut, n)
    requires 1 <= requests && |all| <= requests && Yields(server, requests, r)
    ensures r == Done(RuntimesPage(all, |all|, |all|))
  {
    AdvancesTo(server, all, cut, requests);
    PaginationExact(server, all, cut, requests, r);
  }

  /** The smallest server that is never read to the end: one runtime announced, and only empty pages. */
  lemma EmptyPagesNeverStop(rt: Runtime, requests: nat, r: Fetch)
    requires Yields(_ => Some(RuntimesPage([], 0, 1)), requests, r)
    ensures r == Unfinished
  {
    var server: Server := _ => Some(RuntimesPage([], 0, 1));
    var cut: nat -> nat := _ => 0;
    forall n: nat ensures PageOf(server, [rt], cut, n) {}
    PaginationExact(server, [rt], cut, requests, r);
  }
}
