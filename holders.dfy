/**
 * The holder paginator: walks the chain indexer's holders pages, counting
 * the entries of every page it reads and keeping the first ten holders of
 * page 1.
 */
module Holders {
  import opened Optional
  import opened Text
  import opened Token

  /** Entries requested per page. */
  const PageSize := 50
  /** The highest page index the paginator will request. */
  const MaxPages := 1000
  /** How many holders of page 1 are kept. */
  const TopCount := 10

  /**
   * One entry of a holders page. The address may sit in any of three
   * fields, each possibly absent or empty; the percentage is the entry's
   * numeric value (a string percentage already parsed), absent when the
   * entry has none.
   */
  datatype RawHolder = RawHolder(
    holder: Option<string>,
    accountAddress: Option<string>,
    address: Option<string>,
    percentage: Option<real>)

  /**
   * The indexer's answer for one page: a non-ok HTTP status, a body with a
   * nonzero code or without a data list, a failure that raises (the network
   * or a body that is not JSON), or a page of entries with the indexer's
   * "next page" indicator.
   */
  datatype PageResponse =
    | NotOk
    | Invalid
    | Throws
    | Page(entries: seq<RawHolder>, nextPageIndex: Option<int>)

  datatype HolderCount = HolderCount(totalHolders: nat, topHolders: seq<Holder>)

  /** The address and percentage a raw entry is turned into. */
  function Normalize(e: RawHolder): (h: Holder)
    ensures Truthy(e.holder) ==> h.address == e.holder.value
    ensures !Truthy(e.holder) && Truthy(e.accountAddress) ==> h.address == e.accountAddress.value
    ensures !Truthy(e.holder) && !Truthy(e.accountAddress) && Truthy(e.address)
            ==> h.address == e.address.value
    ensures !Truthy(e.holder) && !Truthy(e.accountAddress) && !Truthy(e.address)
            ==> h.address == "Unknown"
    ensures h.percentage == e.percentage.GetOr(0.0)
  {
    var fields := [e.holder, e.accountAddress, e.address];
    assert fields[0] == e.holder && fields[1] == e.accountAddress && fields[2] == e.address;
    Holder(FirstTruthy(fields, "Unknown"), e.percentage.GetOr(0.0))
  }

  /** The first (at most) ten entries of a page, normalized. */
  function TopHolders(entries: seq<RawHolder>): (top: seq<Holder>)
    ensures |top| == if |entries| < TopCount then |entries| else TopCount
    ensures forall i :: 0 <= i < |top| ==> top[i] == Normalize(entries[i])
  {
    var n := if |entries| < TopCount then |entries| else TopCount;
    seq(n, i requires 0 <= i < n => Normalize(entries[i]))
  }

  /** The top holders a response yields when it is page 1. */
  function TopHoldersOf(r: PageResponse): seq<Holder> {
    if r.Page? then TopHolders(r.entries) else []
  }

  /** Whether the indicator is truthy and names a page after `page`. */
  predicate NextIsLater(next: Option<int>, page: int) {
    next.Some? && next.value != 0 && next.value > page
  }

  /** Whether the paginator asks for another page after reading `r` as page `page`. */
  predicate MorePages(r: PageResponse, page: int) {
    r.Page? && |r.entries| >= PageSize && NextIsLater(r.nextPageIndex, page)
  }

  /** How many holders a response contributes to the total. */
  function PageCount(r: PageResponse): nat {
    if r.Page? then |r.entries| else 0
  }

  /**
   * The last page requested when the walk has reached page `p`: the first
   * page from `p` on after which there are no more pages, or the ceiling.
   */
  function LastPage(fetch: nat -> PageResponse, p: nat): (last: nat)
    requires 1 <= p <= MaxPages
    decreases MaxPages - p
    ensures p <= last <= MaxPages
    ensures forall q :: p <= q < last ==> MorePages(fetch(q), q)
    ensures last == MaxPages || !MorePages(fetch(last), last)
  {
    if p == MaxPages || !MorePages(fetch(p), p) then p else LastPage(fetch, p + 1)
  }

  /** The holders counted over pages `lo` up to, not including, `hi`. */
  function SumCounts(fetch: nat -> PageResponse, lo: nat, hi: nat): nat
    decreases hi
  {
    if hi <= lo then 0 else SumCounts(fetch, lo, hi - 1) + PageCount(fetch(hi - 1))
  }

  /** Whether none of pages `lo` up to, not including, `hi` raises. */
  predicate NoneThrow(fetch: nat -> PageResponse, lo: nat, hi: nat)
    decreases hi
  {
    hi <= lo || (NoneThrow(fetch, lo, hi - 1) && !fetch(hi - 1).Throws?)
  }

  /**
   * What the paginator returns: nothing at all when a requested page
   * raises; otherwise the number of entries over all requested pages and
   * the top holders of page 1.
   */
  function ExpectedCount(fetch: nat -> PageResponse): HolderCount {
    var last := LastPage(fetch, 1);
    if !NoneThrow(fetch, 1, last + 1) then HolderCount(0, [])
    else HolderCount(SumCounts(fetch, 1, last + 1), TopHoldersOf(fetch(1)))
  }

  /**
   * `getTotalHoldersCount`: `fetch(i)` is the indexer's answer for page `i`.
   * `requested` lists the pages asked for, in order: every page up to the
   * last one, or up to the first that raises.
   */
  method TotalHoldersCount(fetch: nat -> PageResponse) returns (count: HolderCount, ghost requested: seq<nat>)
    ensures count == ExpectedCount(fetch)
    ensures forall i :: 0 <= i < |requested| ==> requested[i] == i + 1
    ensures 1 <= |requested| <= LastPage(fetch, 1) <= MaxPages
    ensures NoneThrow(fetch, 1, LastPage(fetch, 1) + 1) ==> |requested| == LastPage(fetch, 1)
  {
    ghost var last := LastPage(fetch, 1);
    var totalHolders: nat := 0;
    var topHolders: seq<Holder> := [];
    var pageIndex := 1;
    var hasMorePages := true;
    requested := [];
    while hasMorePages
      invariant 1 <= pageIndex <= MaxPages
      invariant hasMorePages ==> pageIndex <= last
      invariant !hasMorePages ==> pageIndex == last + 1
      invariant !hasMorePages ==> HolderCount(totalHolders, topHolders) == ExpectedCount(fetch)
      invariant NoneThrow(fetch, 1, pageIndex)
      invariant totalHolders == SumCounts(fetch, 1, pageIndex)
      invariant topHolders == if pageIndex > 1 then TopHoldersOf(fetch(1)) else []
      invariant |requested| == pageIndex - 1
      invariant forall i :: 0 <= i < |requested| ==> requested[i] == i + 1
      decreases MaxPages - pageIndex
    {
      var response := fetch(pageIndex);
      requested := requested + [pageIndex];
      if response.Throws? {
        ThrowStopsCount(fetch, pageIndex);
        count := HolderCount(0, []);
        return;
      }
      if response.NotOk? || response.Invalid? {
        assert !MorePages(fetch(pageIndex), pageIndex);
        assert pageIndex == last;
        CountAtLastPage(fetch, pageIndex);
        assert HolderCount(totalHolders, topHolders) == ExpectedCount(fetch);
        break;
      }
      assert NoneThrow(fetch, 1, pageIndex + 1);
      var entries := response.entries;
      totalHolders := totalHolders + |entries|;
      if pageIndex == 1 {
        topHolders := TopHolders(entries);
      }
      if |entries| < PageSize {
        hasMorePages := false;
      } else {
        hasMorePages := NextIsLater(response.nextPageIndex, pageIndex);
      }
      ghost var page := pageIndex;
      assert totalHolders == SumCounts(fetch, 1, page + 1);
      assert topHolders == TopHoldersOf(fetch(1));
      pageIndex := pageIndex + 1;
      if pageIndex > MaxPages {
        assert page == last;
        CountAtLastPage(fetch, page);
        assert HolderCount(totalHolders, topHolders) == ExpectedCount(fetch);
        break;
      }
      if !hasMorePages {
        assert !MorePages(response, page);
        assert page == last;
        CountAtLastPage(fetch, page);
      }
    }
    count := HolderCount(totalHolders, topHolders);
  }

  /** Having read the last page without a raise, the paginator returns the sum and page 1's top holders. */
  lemma CountAtLastPage(fetch: nat -> PageResponse, p: nat)
    requires p == LastPage(fetch, 1) && NoneThrow(fetch, 1, p + 1)
    ensures ExpectedCount(fetch) == HolderCount(SumCounts(fetch, 1, p + 1), TopHoldersOf(fetch(1)))
  {
  }

  /** A raise on a page up to the last one empties the paginator's result. */
  lemma ThrowStopsCount(fetch: nat -> PageResponse, p: nat)
    requires 1 <= p <= LastPage(fetch, 1) && fetch(p).Throws?
    ensures ExpectedCount(fetch) == HolderCount(0, [])
  {
    if NoneThrow(fetch, 1, LastPage(fetch, 1) + 1) {
      NoneThrowUpTo(fetch, 1, LastPage(fetch, 1) + 1, p);
    }
  }

  /** A range of pages none of which raises contains no raising page. */
  lemma {:induction false} NoneThrowUpTo(fetch: nat -> PageResponse, lo: nat, hi: nat, p: nat)
    requires NoneThrow(fetch, lo, hi) && lo <= p < hi
    ensures !fetch(p).Throws?
    decreases hi
  {
    if p < hi - 1 {
      NoneThrowUpTo(fetch, lo, hi - 1, p);
    }
  }

  /**
   * The walk ends at the first page after which there are no more pages:
   * a short page, a missing, zero or not later indicator, or a failed
   * response.
   */
  lemma {:induction false} LastPageIsFirstStop(fetch: nat -> PageResponse, s: nat, p: nat)
    requires 1 <= s <= p <= MaxPages
    requires forall q :: s <= q < p ==> MorePages(fetch(q), q)
    requires !MorePages(fetch(p), p)
    ensures LastPage(fetch, s) == p
    decreases p - s
  {
    if s < p {
      assert MorePages(fetch(s), s);
      LastPageIsFirstStop(fetch, s + 1, p);
    }
  }

  /** A page with fewer than 50 entries is the last one requested when every earlier page was full and pointed on. */
  lemma ShortPageIsLast(fetch: nat -> PageResponse, p: nat)
    requires 1 <= p <= MaxPages
    requires forall q :: 1 <= q < p ==> MorePages(fetch(q), q)
    requires fetch(p).Page? && |fetch(p).entries| < PageSize
    ensures LastPage(fetch, 1) == p
  {
    LastPageIsFirstStop(fetch, 1, p);
  }

  /** When every page is full and points on, the walk stops at the ceiling of 1000 pages. */
  lemma {:induction false} CeilingStopsWalk(fetch: nat -> PageResponse, s: nat)
    requires 1 <= s <= MaxPages
    requires forall q :: 1 <= q <= MaxPages ==> MorePages(fetch(q), q)
    ensures LastPage(fetch, s) == MaxPages
    decreases MaxPages - s
  {
    if s < MaxPages {
      assert MorePages(fetch(s), s);
      CeilingStopsWalk(fetch, s + 1);
    }
  }

  /**
   * A failed or invalid response ends the walk keeping what was counted
   * before it, and page 1's top holders (none when page 1 itself failed).
   */
  lemma FailedPageKeepsPartialTotal(fetch: nat -> PageResponse, p: nat)
    requires 1 <= p <= MaxPages
    requires forall q :: 1 <= q < p ==> MorePages(fetch(q), q)
    requires fetch(p).NotOk? || fetch(p).Invalid?
    requires NoneThrow(fetch, 1, p)
    ensures ExpectedCount(fetch) == HolderCount(SumCounts(fetch, 1, p), TopHoldersOf(fetch(1)))
    ensures p == 1 ==> ExpectedCount(fetch).topHolders == []
  {
    LastPageIsFirstStop(fetch, 1, p);
  }
}
