/** Pagination: IMAP sequence windows (src/modules/imap/executor.rs), the remote list and
    its next-page tokens (src/modules/message/list.rs), the in-memory pager
    (src/modules/common/paginated.rs) and the database scan pagers
    (src/modules/database/mod.rs). Sizes are far below the integer widths. */
module Paging {
  import opened Wrappers
  import opened Sequences

  // ----- pages of a sequence

  function Reverse<T>(s: seq<T>): (r: seq<T>)
    ensures |r| == |s| && forall i :: 0 <= i < |s| ==> r[i] == s[|s| - 1 - i]
  {
    seq(|s|, i requires 0 <= i < |s| => s[|s| - 1 - i])
  }

  function Skip<T>(s: seq<T>, n: nat): seq<T> {
    if n >= |s| then [] else s[n..]
  }

  function Take<T>(s: seq<T>, n: nat): seq<T> {
    if n >= |s| then s else s[..n]
  }

  function PageOf<T>(s: seq<T>, page: nat, size: nat): seq<T>
    requires page >= 1
  {
    Take(Skip(s, (page - 1) * size), size)
  }

  function Pages<T>(s: seq<T>, size: nat, m: nat): seq<seq<T>> {
    seq(m, i requires 0 <= i < m => PageOf(s, i + 1, size))
  }

  lemma PagesStep<T>(s: seq<T>, size: nat, m: nat)
    ensures Pages(s, size, m + 1) == Pages(s, size, m) + [PageOf(s, m + 1, size)]
  {
  }

  lemma {:induction false} PagesPrefix<T>(s: seq<T>, size: nat, m: nat)
    ensures Flatten(Pages(s, size, m)) == Take(s, m * size)
  {
    if m == 0 {
      assert m * size == 0;
    } else {
      PagesPrefix(s, size, m - 1);
      PagesStep(s, size, m - 1);
      FlattenAppend(Pages(s, size, m - 1), PageOf(s, m, size));
      assert m * size == (m - 1) * size + size;
      TakeSkip(s, (m - 1) * size, size);
    }
  }

  lemma TakeSkip<T>(s: seq<T>, a: nat, b: nat)
    ensures Take(s, a) + Take(Skip(s, a), b) == Take(s, a + b)
  {
  }

  /** The first m pages are the whole sequence exactly when m reaches ceil(n / size):
      the page count is the least number of pages that covers everything. */
  lemma PagesCoverIff<T>(s: seq<T>, size: nat, m: nat)
    requires size >= 1
    ensures Flatten(Pages(s, size, m)) == s <==> m >= CeilDiv(|s|, size)
  {
    PagesPrefix(s, size, m);
    var c := CeilDiv(|s|, size);
    if m >= c {
      MulMono(c, m, size);
    } else {
      MulMono(m, c - 1, size);
      assert |Take(s, m * size)| == m * size < |s|;
    }
  }

  // ----- the in-memory pager and the scan pagers

  datatype Paginated<T> = Paginated(page: Option<nat>, pageSize: Option<nat>, totalItems: nat,
                                    totalPages: Option<nat>, items: seq<T>)

  datatype PageError = InvalidParameter

  function PaginateVec<T>(items: seq<T>, page: Option<nat>, pageSize: Option<nat>): Result<Paginated<T>, PageError> {
    var total := |items|;
    if page.Some? && pageSize.Some? && page.value > 0 && pageSize.value > 0 then
      var offset := (page.value - 1) * pageSize.value;
      var totalPages := if total > 0 then (total + pageSize.value - 1) / pageSize.value else 0;
      var data := if offset >= total then [] else items[offset..Min(offset + pageSize.value, total)];
      Ok(Paginated(page, pageSize, total, Some(totalPages), data))
    else if page == Some(0) || pageSize == Some(0) then Err(InvalidParameter)
    else Ok(Paginated(page, pageSize, total, None, items))
  }

  /** The primary scan, and the secondary scan over the rows its key range selects. */
  function PaginateScan<T>(rows: seq<T>, page: Option<nat>, pageSize: Option<nat>,
                           desc: Option<bool>): Result<Paginated<T>, PageError> {
    var total := |rows|;
    var scan := if desc == Some(true) then Reverse(rows) else rows;
    if page.Some? && pageSize.Some? then
      if page.value == 0 || pageSize.value == 0 then Err(InvalidParameter)
      else
        var offset := (page.value - 1) * pageSize.value;
        var totalPages := if total > 0 then CeilDiv(total, pageSize.value) else 0;
        var data := if offset >= total then [] else Take(Skip(scan, offset), pageSize.value);
        Ok(Paginated(page, pageSize, total, Some(totalPages), data))
    else
      var limit := match pageSize case Some(s) => s case None => total;
      Ok(Paginated(page, pageSize, total, None, Take(scan, limit)))
  }

  /** How many of n items a page of `limit` items shows that begins at `offset`. */
  function ShownCount(n: nat, offset: nat, limit: nat): nat {
    if offset >= n then 0 else Min(offset + limit, n) - offset
  }

  /** These are the rows from `offset` on, at most `limit`, counted from the end if descending. */
  ghost predicate Shows<T(!new)>(items: seq<T>, rows: seq<T>, offset: nat, limit: nat, descending: bool) {
    && |items| == ShownCount(|rows|, offset, limit)
    && forall i :: 0 <= i < |items| ==>
         items[i] == rows[if descending then |rows| - 1 - (offset + i) else offset + i]
  }

  /** The in-memory pager on all inputs: it rejects any 0, and ignores a lone page or size. */
  lemma PaginateVecExact<T(!new)>(items: seq<T>, page: Option<nat>, pageSize: Option<nat>)
    ensures var r := PaginateVec(items, page, pageSize);
            && (r.Err? <==> page == Some(0) || pageSize == Some(0))
            && (r.Ok? ==>
                  var paged := page.Some? && pageSize.Some?;
                  var offset := if paged then (page.value - 1) * pageSize.value else 0;
                  var limit := if paged then pageSize.value else |items|;
                  && r.value == Paginated(page, pageSize, |items|, r.value.totalPages, r.value.items)
                  && r.value.totalPages == (if paged then Some(CeilDiv(|items|, pageSize.value)) else None)
                  && Shows(r.value.items, items, offset, limit, false))
  {
    if page.Some? && pageSize.Some? && page.value > 0 && pageSize.value > 0 {
      VecPage(items, page.value, pageSize.value);
    }
  }

  lemma VecPage<T(!new)>(items: seq<T>, page: nat, size: nat)
    requires page >= 1 && size >= 1
    ensures var r := PaginateVec(items, Some(page), Some(size));
            && r.Ok?
            && r.value == Paginated(Some(page), Some(size), |items|, Some(CeilDiv(|items|, size)), r.value.items)
            && Shows(r.value.items, items, (page - 1) * size, size, false)
  {
    BothPagersPage(items, page, size);
    ScannedAt(items, (page - 1) * size, size, false);
  }

  /** The scan pagers on all inputs and in both directions: only `Some(true)` descends, a 0
      is rejected only when both are given, and a lone size limits the result. */
  lemma PaginateScanExact<T(!new)>(rows: seq<T>, page: Option<nat>, pageSize: Option<nat>, desc: Option<bool>)
    ensures var r := PaginateScan(rows, page, pageSize, desc);
            var paged := page.Some? && pageSize.Some?;
            && (r.Err? <==> paged && (page.value == 0 || pageSize.value == 0))
            && (r.Ok? ==>
                  var offset := if paged then (page.value - 1) * pageSize.value else 0;
                  var limit := if pageSize.Some? then pageSize.value else |rows|;
                  && r.value == Paginated(page, pageSize, |rows|, r.value.totalPages, r.value.items)
                  && r.value.totalPages == (if paged then Some(CeilDiv(|rows|, pageSize.value)) else None)
                  && Shows(r.value.items, rows, offset, limit, desc == Some(true)))
  {
    if page.Some? && pageSize.Some? {
      if page.value > 0 && pageSize.value > 0 {
        CeilDivUnique(0, pageSize.value, 0);
        ScannedAt(rows, (page.value - 1) * pageSize.value, pageSize.value, desc == Some(true));
      }
    } else {
      ScannedAt(rows, 0, if pageSize.Some? then pageSize.value else |rows|, desc == Some(true));
    }
  }

  lemma ScannedAt<T(!new)>(rows: seq<T>, offset: nat, limit: nat, descending: bool)
    ensures Shows(Take(Skip(if descending then Reverse(rows) else rows, offset), limit),
                  rows, offset, limit, descending)
  {
  }

  /** With a page and a size both pagers return that page of the sequence and the page
      count of `PagesCoverIff`; the descending scan pages the reversed rows. */
  lemma BothPagersPage<T>(items: seq<T>, page: nat, size: nat)
    requires page >= 1 && size >= 1
    ensures PaginateVec(items, Some(page), Some(size)) ==
            Ok(Paginated(Some(page), Some(size), |items|, Some(CeilDiv(|items|, size)), PageOf(items, page, size)))
    ensures PaginateScan(items, Some(page), Some(size), None) == PaginateVec(items, Some(page), Some(size))
    ensures PaginateScan(items, Some(page), Some(size), Some(true)) ==
            PaginateVec(Reverse(items), Some(page), Some(size))
  {
    CeilDivUnique(0, size, 0);
    PageIsSlice(items, (page - 1) * size, size);
    PageIsSlice(Reverse(items), (page - 1) * size, size);
  }

  lemma PageIsSlice<T>(s: seq<T>, offset: nat, size: nat)
    ensures Take(Skip(s, offset), size) == if offset >= |s| then [] else s[offset..Min(offset + size, |s|)]
  {
  }

  /** The two pagers do not agree everywhere. They differ exactly on a page 0 without a
      size, and on a size without a page that is 0 or would cut the result: the in-memory
      pager rejects a lone 0 and ignores a lone size, the scan does the opposite. */
  lemma PagersAgreeIff<T>(items: seq<T>, page: Option<nat>, pageSize: Option<nat>)
    ensures PaginateVec(items, page, pageSize) == PaginateScan(items, page, pageSize, None) <==>
            !(page == Some(0) && pageSize.None?) &&
            !(page.None? && pageSize.Some? && (pageSize.value == 0 || pageSize.value < |items|))
  {
    if page.Some? && pageSize.Some? {
      if page.value >= 1 && pageSize.value >= 1 {
        BothPagersPage(items, page.value, pageSize.value);
      }
    } else if page.None? && pageSize.Some? {
      assert |Take(items, pageSize.value)| == Min(pageSize.value, |items|);
    }
  }

  // ----- IMAP sequence windows

  function SaturatingSub(a: nat, b: nat): nat {
    if a >= b then a - b else 0
  }

  function Max(a: nat, b: nat): nat {
    if a >= b then a else b
  }

  /** The inclusive range of message sequence numbers to fetch, if any, after skipping
      `offset` messages from the listed end of the mailbox. */
  function WindowFrom(total: nat, offset: nat, size: nat, desc: bool): Option<(nat, nat)>
    requires size >= 1
  {
    if total == 0 then None
    else if desc then
      var end := SaturatingSub(total, offset);
      if end == 0 then None else Some((Max(SaturatingSub(end, size - 1), 1), end))
    else
      var start := offset + 1;
      if start > total then None else Some((start, Min(start + size - 1, total)))
  }

  function Window(total: nat, page: nat, size: nat, desc: bool): Option<(nat, nat)>
    requires page >= 1 && size >= 1
  {
    WindowFrom(total, (page - 1) * size, size, desc)
  }

  function Range(first: nat, last: nat): seq<nat> {
    if first > last then [] else seq(last - first + 1, i requires 0 <= i <= last - first => first + i)
  }

  /** What FETCH of a window answers, and the list shows: reversed when descending. */
  function Shown(total: nat, page: nat, size: nat, desc: bool): seq<nat>
    requires page >= 1 && size >= 1
  {
    Listed(Window(total, page, size, desc), desc)
  }

  function Listed(window: Option<(nat, nat)>, desc: bool): seq<nat> {
    match window
    case None => []
    case Some((first, last)) => if desc then Reverse(Range(first, last)) else Range(first, last)
  }

  /** All sequence numbers in the order of the list: 1 to total, or total to 1. */
  function Everything(total: nat, desc: bool): seq<nat> {
    seq(total, i requires 0 <= i < total => if desc then total - i else i + 1)
  }

  /** A window is never reversed or empty, so the second window function's extra guard
      never fires. */
  lemma WindowOrdered(total: nat, page: nat, size: nat, desc: bool)
    requires page >= 1 && size >= 1
    ensures match Window(total, page, size, desc)
            case None => true
            case Some((first, last)) => 1 <= first <= last <= total && last - first < size
  {
    var offset := (page - 1) * size;
  }

  /** These are the sequence numbers after the first `offset` of the list, at most `size`. */
  predicate AreListed(listed: seq<nat>, total: nat, offset: nat, size: nat, desc: bool) {
    && |listed| == ShownCount(total, offset, size)
    && forall i :: 0 <= i < |listed| ==> listed[i] == if desc then total - offset - i else offset + i + 1
  }

  lemma ListedAt(total: nat, offset: nat, size: nat, desc: bool)
    requires size >= 1
    ensures AreListed(Listed(WindowFrom(total, offset, size, desc), desc), total, offset, size, desc)
  {
  }

  lemma ListedIsSlice(total: nat, offset: nat, size: nat, desc: bool)
    requires size >= 1
    ensures Listed(WindowFrom(total, offset, size, desc), desc) ==
            if offset >= total then [] else Everything(total, desc)[offset..Min(offset + size, total)]
  {
    ListedAt(total, offset, size, desc);
  }

  /** Each window is the page of the list it is asked for. */
  lemma ShownIsPage(total: nat, page: nat, size: nat, desc: bool)
    requires page >= 1 && size >= 1
    ensures Shown(total, page, size, desc) == PageOf(Everything(total, desc), page, size)
    ensures AreListed(PageOf(Everything(total, desc), page, size), total, (page - 1) * size, size, desc)
  {
    var offset := (page - 1) * size;
    ListedAt(total, offset, size, desc);
    PageIsSlice(Everything(total, desc), offset, size);
    ListedIsSlice(total, offset, size, desc);
  }

  /** Descending page k is the mirror image of ascending page k. */
  lemma DescendingMirrors(total: nat, page: nat, size: nat, i: nat)
    requires page >= 1 && size >= 1
    requires i < |Shown(total, page, size, false)|
    ensures i < |Shown(total, page, size, true)|
    ensures Shown(total, page, size, true)[i] == total + 1 - Shown(total, page, size, false)[i]
  {
    ListedAt(total, (page - 1) * size, size, false);
    ListedAt(total, (page - 1) * size, size, true);
  }

  // ----- the remote list and its tokens

  /** A decoded token carries a page number; anything else does not decode. */
  datatype Token = PageToken(page: nat) | Garbage

  datatype ListError = PageSizeTooLarge | InvalidToken | AssertionFailed

  datatype CursorPage = CursorPage(next: Option<Token>, total: nat, totalPages: nat, items: seq<nat>)

  function NextToken(page: nat, totalPages: nat): Option<Token> {
    if page == totalPages then None else Some(PageToken(page + 1))
  }

  method FetchRemoteMessages(total: nat, token: Option<Token>, pageSize: nat, desc: bool)
    returns (r: Result<CursorPage, ListError>)
    ensures r.Err? <==> pageSize > 100 || pageSize == 0 || token == Some(Garbage) || token == Some(PageToken(0))
    ensures r == Err(PageSizeTooLarge) <==> pageSize > 100
    ensures r == Err(InvalidToken) <==> pageSize <= 100 && token == Some(Garbage)
    ensures r.Ok? ==>
              var page := if token.Some? then token.value.page else 1;
              && r.value.total == total
              && r.value.totalPages == CeilDiv(total, pageSize)
              && r.value.items == PageOf(Everything(total, desc), page, pageSize)
              && (r.value.next.None? <==> total == 0 || page == CeilDiv(total, pageSize))
              && (r.value.next.Some? ==> r.value.next == Some(PageToken(page + 1)))
  {
    if pageSize > 100 {
      return Err(PageSizeTooLarge);
    }
    var page := 1;
    if token.Some? {
      if token.value.Garbage? {
        return Err(InvalidToken);
      }
      page := token.value.page;
    }
    if page == 0 || pageSize == 0 {
      return Err(AssertionFailed);
    }
    ShownIsPage(total, page, pageSize, desc);
    var fetches := Shown(total, page, pageSize, desc);
    if total == 0 {
      CeilDivUnique(0, pageSize, 0);
      return Ok(CursorPage(None, 0, 0, []));
    }
    var totalPages := CeilDiv(total, pageSize);
    r := Ok(CursorPage(NextToken(page, totalPages), total, totalPages, fetches));
  }

  /** The existing pages are those with something on them. */
  lemma PageExistsIff<T>(s: seq<T>, page: nat, size: nat)
    requires page >= 1 && size >= 1
    ensures PageOf(s, page, size) != [] <==> page <= CeilDiv(|s|, size)
  {
    var c := CeilDiv(|s|, size);
    if page <= c {
      MulMono(page - 1, c - 1, size);
    } else {
      MulMono(c, page - 1, size);
    }
    PageIsSlice(s, (page - 1) * size, size);
  }

  /** Following the tokens from the first page of a fixed mailbox stops after
      ceil(T / size) pages, which together show every message exactly once, in order.
      An empty mailbox is one empty page. */
  method WalkList(total: nat, pageSize: nat, desc: bool) returns (pages: seq<seq<nat>>)
    requires 1 <= pageSize <= 100
    ensures |pages| == if total == 0 then 1 else CeilDiv(total, pageSize)
    ensures Flatten(pages) == Everything(total, desc)
    ensures |Flatten(pages)| == total
    ensures forall i :: 0 <= i < total ==> Flatten(pages)[i] == if desc then total - i else i + 1
    ensures total > 0 ==> forall page :: page in pages ==> page != []
  {
    ghost var all := Everything(total, desc);
    ghost var count := if total == 0 then 1 else CeilDiv(total, pageSize);
    var token: Option<Token> := None;
    pages := [];
    var more := true;
    while more
      invariant if more then |pages| < count else |pages| == count
      invariant more ==> token == if pages == [] then None else Some(PageToken(|pages| + 1))
      invariant pages == Pages(all, pageSize, |pages|)
      decreases count - |pages|, more
    {
      var r := FetchRemoteMessages(total, token, pageSize, desc);
      PagesStep(all, pageSize, |pages|);
      pages := pages + [r.value.items];
      token := r.value.next;
      more := token.Some?;
    }
    PagesAreList(total, pageSize, desc, count);
  }

  lemma PageNotEmpty<T>(s: seq<T>, size: nat, m: nat, i: nat)
    requires size >= 1 && i < m <= CeilDiv(|s|, size)
    ensures Pages(s, size, m)[i] != []
  {
    PageExistsIff(s, i + 1, size);
  }

  /** All the pages together are the list, and none of them is empty. */
  lemma PagesAreList(total: nat, size: nat, desc: bool, count: nat)
    requires size >= 1 && count == if total == 0 then 1 else CeilDiv(total, size)
    ensures var pages := Pages(Everything(total, desc), size, count);
            && Flatten(pages) == Everything(total, desc)
            && (total > 0 ==> forall page :: page in pages ==> page != [])
  {
    var all := Everything(total, desc);
    var pages := Pages(all, size, count);
    PagesCoverIff(all, size, count);
    if total > 0 {
      forall page | page in pages
        ensures page != []
      {
        var i: nat :| i < |pages| && pages[i] == page;
        PageNotEmpty(all, size, count, i);
      }
    }
  }

  /** Whether a walk that is at `page` gets its last token within n requests. */
  predicate StopsWithin(total: nat, size: nat, page: nat, n: nat)
    requires size >= 1
    decreases n
  {
    n > 0 && (total == 0 || NextToken(page, CeilDiv(total, size)).None? || StopsWithin(total, size, page + 1, n - 1))
  }

  lemma {:induction false} NeverStopsPastEnd(total: nat, size: nat, page: nat, n: nat)
    requires size >= 1 && total > 0 && page > CeilDiv(total, size)
    ensures !StopsWithin(total, size, page, n)
    decreases n
  {
    if n > 0 {
      NeverStopsPastEnd(total, size, page + 1, n - 1);
    }
  }

  lemma {:induction false} StopsAtEnd(total: nat, size: nat, page: nat)
    requires size >= 1 && 1 <= page <= CeilDiv(total, size)
    ensures StopsWithin(total, size, page, CeilDiv(total, size) - page + 1)
    decreases CeilDiv(total, size) - page
  {
    if page < CeilDiv(total, size) {
      StopsAtEnd(total, size, page + 1);
    }
  }

  ghost predicate Stops(total: nat, size: nat, page: nat)
    requires size >= 1
  {
    exists n: nat :: StopsWithin(total, size, page, n)
  }

  /** From an arbitrary token the walk ends if and only if the mailbox is empty or the
      token's page exists: the last page is recognised by equality, so a token past the
      end (say, of a mailbox that shrank) is followed by tokens for ever. */
  lemma WalkStopsIff(total: nat, size: nat, page: nat)
    requires size >= 1 && page >= 1
    ensures Stops(total, size, page) <==> total == 0 || page <= CeilDiv(total, size)
  {
    if total == 0 {
      assert StopsWithin(total, size, page, 1);
    } else if page <= CeilDiv(total, size) {
      StopsAtEnd(total, size, page);
    } else if Stops(total, size, page) {
      var n: nat :| StopsWithin(total, size, page, n);
      NeverStopsPastEnd(total, size, page, n);
    }
  }
}
