/** The paged fetch loops of the live sources (src/cli/pipeline.py) over a source that
    may answer any page in any way. */
module PagedFetch {
  import opened Wrappers

  /** A raw job; `id` is absent when the source gave no usable external id. */
  datatype Item = Item(id: Option<string>, body: int)

  /** `pageCount` is what a numbered source reports as its last page, zero when it
      reports nothing; `limit` and `total` are what an offset source reports. */
  datatype Page = Page(items: seq<Item>, pageCount: int, limit: int, total: int)

  datatype FetchException = ParseError | FetchError(statusCode: Option<int>, cloudflare: bool)

  datatype Answer = Got(page: Page) | Raised(exception: FetchException)

  datatype StopReason =
    | TargetReached | SourceExhausted | MaxPagesReached
    | ParseFailure | CloudflareChallenge | InvalidRequest | AuthRequired | RateLimited
    | SourceUnavailable | FetchFailure

  function StopReasonOf(e: FetchException): StopReason {
    match e
    case ParseError => ParseFailure
    case FetchError(status, cloudflare) =>
      if cloudflare then CloudflareChallenge
      else if status == Some(400) then InvalidRequest
      else if status == Some(401) || status == Some(403) then AuthRequired
      else if status == Some(429) then RateLimited
      else if status.Some? && status.value >= 500 then SourceUnavailable
      else FetchFailure
  }

  // ---------------------------------------------------------------------
  // First occurrences
  // ---------------------------------------------------------------------

  function Ids(items: seq<Item>): set<string> {
    set item | item in items && item.id.Some? :: item.id.value
  }

  /** How many items have an id. */
  function Named(items: seq<Item>): nat {
    if items == [] then 0
    else Named(items[..|items| - 1]) + if items[|items| - 1].id.Some? then 1 else 0
  }

  /** The items with an id that neither `seen` nor an earlier item has. */
  function FirstOccurrences(items: seq<Item>, seen: set<string>): seq<Item> {
    if items == [] then []
    else
      var front, last := items[..|items| - 1], items[|items| - 1];
      FirstOccurrences(front, seen)
      + if last.id.Some? && last.id.value !in seen + Ids(front) then [last] else []
  }

  lemma IdsSnoc(items: seq<Item>, item: Item, seen: set<string>)
    ensures Ids(items + [item]) == Ids(items) + if item.id.Some? then {item.id.value} else {}
    ensures Named(items + [item]) == Named(items) + if item.id.Some? then 1 else 0
    ensures FirstOccurrences(items + [item], seen)
            == FirstOccurrences(items, seen)
               + if item.id.Some? && item.id.value !in seen + Ids(items) then [item] else []
  {
    assert (items + [item])[..|items|] == items;
    forall id | id in Ids(items) ensures id in Ids(items + [item]) {
      var x :| x in items && x.id == Some(id);
      assert x in items + [item];
    }
    assert item in items + [item];
  }

  lemma Associative(a: seq<Item>, b: seq<Item>, c: seq<Item>)
    ensures (a + b) + c == a + (b + c)
  {
  }

  lemma {:induction false} Concatenated(a: seq<Item>, b: seq<Item>, seen: set<string>)
    ensures Ids(a + b) == Ids(a) + Ids(b)
    ensures Named(a + b) == Named(a) + Named(b)
    ensures FirstOccurrences(a + b, seen) == FirstOccurrences(a, seen) + FirstOccurrences(b, seen + Ids(a))
    decreases |b|
  {
    if b == [] {
      assert a + b == a;
    } else {
      hide Ids, Named, FirstOccurrences;
      var front, last := b[..|b| - 1], b[|b| - 1];
      assert b == front + [last] && a + b == (a + front) + [last];
      Concatenated(a, front, seen);
      IdsSnoc(front, last, seen + Ids(a));
      IdsSnoc(a + front, last, seen);
      assert seen + Ids(a) + Ids(front) == seen + (Ids(a) + Ids(front));
      var extra := if last.id.Some? && last.id.value !in seen + Ids(a) + Ids(front) then [last] else [];
      Associative(FirstOccurrences(a, seen), FirstOccurrences(front, seen + Ids(a)), extra);
    }
  }

  lemma NoItems(seen: set<string>)
    ensures Ids([]) == {} && Named([]) == 0 && FirstOccurrences([], seen) == []
  {
  }

  /** The set of ids that the pages of one fetch share. */
  class SeenIds {
    var ids: set<string>

    constructor ()
      ensures ids == {}
    {
      ids := {};
    }
  }

  method DedupeNewJobs(rawJobs: seq<Item>, seen: SeenIds) returns (selected: seq<Item>, deduped: nat)
    modifies seen
    ensures selected == FirstOccurrences(rawJobs, old(seen.ids))
    ensures seen.ids == old(seen.ids) + Ids(rawJobs)
    ensures deduped + |selected| == Named(rawJobs)
  {
    hide FirstOccurrences, Ids, Named;
    selected, deduped := [], 0;
    NoItems(seen.ids);
    var i := 0;
    while i < |rawJobs|
      invariant 0 <= i <= |rawJobs|
      invariant selected == FirstOccurrences(rawJobs[..i], old(seen.ids))
      invariant seen.ids == old(seen.ids) + Ids(rawJobs[..i])
      invariant deduped + |selected| == Named(rawJobs[..i])
    {
      var rawJob := rawJobs[i];
      assert rawJobs[..i + 1] == rawJobs[..i] + [rawJob];
      IdsSnoc(rawJobs[..i], rawJob, old(seen.ids));
      i := i + 1;
      if rawJob.id.None? {
        continue;
      }
      if rawJob.id.value in seen.ids {
        deduped := deduped + 1;
        continue;
      }
      seen.ids := seen.ids + {rawJob.id.value};
      selected := selected + [rawJob];
    }
    assert rawJobs[..i] == rawJobs;
  }

  // ---------------------------------------------------------------------
  // What the pages of a fetch amount to
  // ---------------------------------------------------------------------

  function All(pages: seq<Page>): seq<Item> {
    if pages == [] then [] else All(pages[..|pages| - 1]) + pages[|pages| - 1].items
  }

  function Collected(pages: seq<Page>): seq<Item> {
    FirstOccurrences(All(pages), {})
  }

  /** What the last page adds to the pages before it. */
  function Brought(pages: seq<Page>): seq<Item>
    requires pages != []
  {
    FirstOccurrences(pages[|pages| - 1].items, Ids(All(pages[..|pages| - 1])))
  }

  /** How many pages in a row, up to the last one, have brought nothing. */
  function EmptyPages(pages: seq<Page>): nat {
    if pages == [] || Brought(pages) != [] then 0 else EmptyPages(pages[..|pages| - 1]) + 1
  }

  /** How far a page moves the offset: by the limit it reports, or by the requested
      page size when that is smaller. */
  function Advance(page: Page, pageSize: nat): nat {
    var observed := if page.limit >= 1 then page.limit else 1;
    if observed <= pageSize then observed else pageSize
  }

  /** Where an offset source is asked for its next page. */
  function OffsetAfter(pages: seq<Page>, pageSize: nat): nat {
    if pages == [] then 0
    else OffsetAfter(pages[..|pages| - 1], pageSize) + Advance(pages[|pages| - 1], pageSize)
  }

  lemma OffsetSnoc(pages: seq<Page>, page: Page, pageSize: nat)
    ensures OffsetAfter(pages + [page], pageSize) == OffsetAfter(pages, pageSize) + Advance(page, pageSize)
  {
    assert (pages + [page])[..|pages|] == pages;
  }

  /** Whether the last page says that nothing comes after it. */
  predicate SaysLast(numbered: bool, pageSize: nat, pages: seq<Page>)
    requires pages != []
  {
    var last := pages[|pages| - 1];
    if numbered then last.pageCount != 0 && |pages| >= last.pageCount
    else OffsetAfter(pages[..|pages| - 1], pageSize) + |last.items| >= last.total
  }

  predicate Exhausted(numbered: bool, pageSize: nat, pages: seq<Page>)
    requires pages != []
  {
    EmptyPages(pages) >= 2 || SaysLast(numbered, pageSize, pages)
  }

  /** A fetch goes on after these pages. */
  predicate GoesOn(numbered: bool, pageSize: nat, target: int, pages: seq<Page>) {
    |Collected(pages)| < target && (pages != [] ==> !Exhausted(numbered, pageSize, pages))
  }

  datatype PaginatedFetch = PaginatedFetch(
    rawJobs: seq<Item>, pagesAttempted: nat, pagesSucceeded: nat, pagesFailed: nat,
    stopReason: StopReason, dedupedCount: nat, totalAvailable: Option<int>)

  /** What is asked of the source after these pages: a page number or an offset. */
  function Position(numbered: bool, pageSize: nat, pages: seq<Page>): nat {
    if numbered then |pages| + 1 else OffsetAfter(pages, pageSize)
  }

  /** The pages are the source's answers to the requests in turn, and the fetch had a
      reason to go on before each of them. */
  ghost predicate Follows(numbered: bool, pageSize: nat, target: int, source: nat -> Answer, pages: seq<Page>) {
    forall k | 0 <= k < |pages| ::
      && GoesOn(numbered, pageSize, target, pages[..k])
      && source(Position(numbered, pageSize, pages[..k])) == Got(pages[k])
  }

  /** The complete account of a fetch that got these pages. */
  ghost predicate Accounts(numbered: bool, pageSize: nat, target: int, maxPages: nat, source: nat -> Answer,
                           pages: seq<Page>, r: PaginatedFetch)
  {
    var next := source(Position(numbered, pageSize, pages));
    var asked := GoesOn(numbered, pageSize, target, pages) && |pages| < maxPages;
    && Follows(numbered, pageSize, target, source, pages)
    && |pages| <= maxPages
    && (asked ==> next.Raised?)
    && r.rawJobs == Collected(pages)
    && r.dedupedCount + |r.rawJobs| == Named(All(pages))
    && r.pagesSucceeded == |pages|
    && r.pagesFailed == (if asked then 1 else 0)
    && r.pagesAttempted == r.pagesSucceeded + r.pagesFailed <= maxPages
    && r.totalAvailable == (if pages == [] then None else Some(pages[|pages| - 1].total))
    && r.stopReason ==
       if |r.rawJobs| >= target then TargetReached
       else if asked then StopReasonOf(next.exception)
       else if pages != [] && Exhausted(numbered, pageSize, pages) then SourceExhausted
       else MaxPagesReached
  }

  /** The pages a fetch gets that has these already. */
  function PagesFrom(numbered: bool, pageSize: nat, target: int, maxPages: nat, source: nat -> Answer,
                     pages: seq<Page>): seq<Page>
    decreases maxPages - |pages|
  {
    if |pages| >= maxPages || !GoesOn(numbered, pageSize, target, pages) then pages
    else
      match source(Position(numbered, pageSize, pages))
      case Raised(_) => pages
      case Got(page) => PagesFrom(numbered, pageSize, target, maxPages, source, pages + [page])
  }

  function Pages(numbered: bool, pageSize: nat, target: int, maxPages: nat, source: nat -> Answer): seq<Page> {
    PagesFrom(numbered, pageSize, target, maxPages, source, [])
  }

  lemma {:induction false} FollowedPages(numbered: bool, pageSize: nat, target: int, maxPages: nat,
                                         source: nat -> Answer, pages: seq<Page>, k: nat)
    requires Follows(numbered, pageSize, target, source, pages) && k <= |pages| <= maxPages
    ensures PagesFrom(numbered, pageSize, target, maxPages, source, pages[..k])
            == PagesFrom(numbered, pageSize, target, maxPages, source, pages)
    decreases |pages| - k
  {
    hide GoesOn, Position;
    if k < |pages| {
      FollowedPages(numbered, pageSize, target, maxPages, source, pages, k + 1);
      assert pages[..k + 1] == pages[..k] + [pages[k]];
    } else {
      assert pages[..k] == pages;
    }
  }

  /** An account can only be of the pages the source really gives. */
  lemma AccountedPages(numbered: bool, pageSize: nat, target: int, maxPages: nat, source: nat -> Answer,
                       pages: seq<Page>, r: PaginatedFetch)
    requires Accounts(numbered, pageSize, target, maxPages, source, pages, r)
    ensures pages == Pages(numbered, pageSize, target, maxPages, source)
  {
    hide GoesOn, Position, Follows, Exhausted;
    FollowedPages(numbered, pageSize, target, maxPages, source, pages, 0);
    assert pages[..0] == [];
  }

  /** What each reason to stop says about the fetch and about the source's next answer; the
      reasons exclude each other, so each is given exactly when it is true. */
  lemma StopReasonTells(numbered: bool, pageSize: nat, target: int, maxPages: nat, source: nat -> Answer,
                        pages: seq<Page>, r: PaginatedFetch)
    requires Accounts(numbered, pageSize, target, maxPages, source, pages, r)
    ensures var next := source(Position(numbered, pageSize, pages));
            match r.stopReason
            case TargetReached => |r.rawJobs| >= target
            case SourceExhausted => |r.rawJobs| < target && pages != [] && Exhausted(numbered, pageSize, pages)
            case MaxPagesReached => |r.rawJobs| < target && |pages| == maxPages
            case ParseFailure => next == Raised(ParseError)
            case CloudflareChallenge => next.Raised? && next.exception.FetchError? && next.exception.cloudflare
            case InvalidRequest => next == Raised(FetchError(Some(400), false))
            case AuthRequired =>
              next in {Raised(FetchError(Some(401), false)), Raised(FetchError(Some(403), false))}
            case RateLimited => next == Raised(FetchError(Some(429), false))
            case SourceUnavailable =>
              && next.Raised? && next.exception.FetchError? && !next.exception.cloudflare
              && next.exception.statusCode.Some? && next.exception.statusCode.value >= 500
            case FetchFailure =>
              && next.Raised? && next.exception.FetchError? && !next.exception.cloudflare
              && (next.exception.statusCode.Some? ==>
                    next.exception.statusCode.value < 500 && next.exception.statusCode.value !in {400, 401, 403, 429})
    ensures r.pagesFailed == 0 <==> r.stopReason in {TargetReached, SourceExhausted, MaxPagesReached}
  {
    hide Follows, Collected, Exhausted, Position, All, Named;
  }

  lemma PageSnoc(pages: seq<Page>, page: Page)
    ensures All(pages + [page]) == All(pages) + page.items
    ensures Collected(pages + [page]) == Collected(pages) + Brought(pages + [page])
    ensures Brought(pages + [page]) == FirstOccurrences(page.items, Ids(All(pages)))
    ensures Named(All(pages + [page])) == Named(All(pages)) + Named(page.items)
    ensures Ids(All(pages + [page])) == Ids(All(pages)) + Ids(page.items)
    ensures EmptyPages(pages + [page]) == if Brought(pages + [page]) == [] then EmptyPages(pages) + 1 else 0
  {
    assert (pages + [page])[..|pages|] == pages;
    Concatenated(All(pages), page.items, {});
    assert {} + Ids(All(pages)) == Ids(All(pages));
  }

  lemma FollowsSnoc(numbered: bool, pageSize: nat, target: int, source: nat -> Answer, pages: seq<Page>, page: Page)
    requires Follows(numbered, pageSize, target, source, pages)
    requires GoesOn(numbered, pageSize, target, pages)
    requires source(Position(numbered, pageSize, pages)) == Got(page)
    ensures Follows(numbered, pageSize, target, source, pages + [page])
  {
    var all := pages + [page];
    forall k | 0 <= k < |all|
      ensures GoesOn(numbered, pageSize, target, all[..k])
      ensures source(Position(numbered, pageSize, all[..k])) == Got(all[k])
    {
      assert all[..k] == pages[..k];
      if k == |pages| {
        assert pages[..k] == pages;
      }
    }
  }

  /** What the loop variables of a fetch hold after these pages. */
  ghost predicate Tracks(numbered: bool, pageSize: nat, target: int, source: nat -> Answer, pages: seq<Page>,
                         collected: seq<Item>, ids: set<string>, deduped: nat, emptyPages: nat, total: Option<int>)
  {
    && Follows(numbered, pageSize, target, source, pages)
    && collected == Collected(pages) && ids == Ids(All(pages))
    && deduped + |collected| == Named(All(pages))
    && emptyPages == EmptyPages(pages)
    && total == if pages == [] then None else Some(pages[|pages| - 1].total)
  }

  lemma TracksNothing(numbered: bool, pageSize: nat, target: int, source: nat -> Answer)
    ensures Tracks(numbered, pageSize, target, source, [], [], {}, 0, 0, None)
    ensures OffsetAfter([], pageSize) == 0
  {
  }

  lemma TracksIds(numbered: bool, pageSize: nat, target: int, source: nat -> Answer, pages: seq<Page>,
                  collected: seq<Item>, ids: set<string>, deduped: nat, emptyPages: nat, total: Option<int>)
    requires Tracks(numbered, pageSize, target, source, pages, collected, ids, deduped, emptyPages, total)
    ensures collected == Collected(pages)
  {
  }

  lemma {:induction false} TracksSnoc(numbered: bool, pageSize: nat, target: int, source: nat -> Answer,
                                      pages: seq<Page>, collected: seq<Item>, ids: set<string>, deduped: nat,
                                      emptyPages: nat, total: Option<int>, page: Page)
    requires Tracks(numbered, pageSize, target, source, pages, collected, ids, deduped, emptyPages, total)
    requires |collected| < target && (pages != [] ==> !Exhausted(numbered, pageSize, pages))
    requires source(if numbered then |pages| + 1 else OffsetAfter(pages, pageSize)) == Got(page)
    ensures var found := FirstOccurrences(page.items, ids);
            && |found| <= Named(page.items)
            && Tracks(numbered, pageSize, target, source, pages + [page], collected + found, ids + Ids(page.items),
                      deduped + (Named(page.items) - |found|), if found == [] then emptyPages + 1 else 0,
                      Some(page.total))
            && (Exhausted(numbered, pageSize, pages + [page]) <==>
                (found == [] && emptyPages >= 1)
                || (if numbered then page.pageCount != 0 && |pages| + 1 >= page.pageCount
                    else OffsetAfter(pages, pageSize) + |page.items| >= page.total))
    ensures OffsetAfter(pages + [page], pageSize) == OffsetAfter(pages, pageSize) + Advance(page, pageSize)
  {
    hide FirstOccurrences, Ids, Named, All, Follows, Collected, Brought, OffsetAfter, EmptyPages;
    FollowsSnoc(numbered, pageSize, target, source, pages, page);
    PageSnoc(pages, page);
    OffsetSnoc(pages, page, pageSize);
    FewerThanNamed(page.items, ids);
    assert (pages + [page])[..|pages|] == pages;
  }

  lemma {:induction false} FewerThanNamed(items: seq<Item>, seen: set<string>)
    ensures |FirstOccurrences(items, seen)| <= Named(items)
  {
    if items != [] {
      FewerThanNamed(items[..|items| - 1], seen);
    }
  }

  lemma Concluded(numbered: bool, pageSize: nat, target: int, maxPages: nat, source: nat -> Answer, pages: seq<Page>,
                  ids: set<string>, emptyPages: nat, r: PaginatedFetch)
    requires Tracks(numbered, pageSize, target, source, pages, r.rawJobs, ids, r.dedupedCount, emptyPages,
                    r.totalAvailable)
    requires |pages| <= maxPages && r.pagesSucceeded == |pages|
    requires var exhausted := pages != [] && Exhausted(numbered, pageSize, pages);
             var asked := |r.rawJobs| < target && !exhausted && |pages| < maxPages;
             var next := source(if numbered then |pages| + 1 else OffsetAfter(pages, pageSize));
             && (asked ==> next.Raised?)
             && r.pagesFailed == (if asked then 1 else 0)
             && r.pagesAttempted == r.pagesSucceeded + r.pagesFailed
             && r.stopReason == if |r.rawJobs| >= target then TargetReached
                                else if asked then StopReasonOf(next.exception)
                                else if exhausted then SourceExhausted
                                else MaxPagesReached
    ensures Accounts(numbered, pageSize, target, maxPages, source, pages, r)
  {
    hide Follows, Collected, EmptyPages, OffsetAfter, Ids, All, Named;
  }

  /** A source whose pages are numbered from one. */
  method FetchNumbered(source: nat -> Answer, target: int, maxPages: nat)
    returns (r: PaginatedFetch)
    ensures Accounts(true, 1, target, maxPages, source, Pages(true, 1, target, maxPages, source), r)
  {
    hide Tracks, FirstOccurrences, Ids, Brought, OffsetAfter, Exhausted, Accounts, All, Pages;
    var seen := new SeenIds();
    var collected: seq<Item> := [];
    var dedupedCount: nat, pagesAttempted: nat, pagesSucceeded: nat, pagesFailed: nat := 0, 0, 0, 0;
    var stopReason := TargetReached;
    var totalAvailable := None;
    var emptyPages: nat := 0;
    var broke := false;
    var page := 1;
    ghost var pages: seq<Page> := [];
    TracksNothing(true, 1, target, source);
    while |collected| < target && pagesAttempted < maxPages
      invariant fresh(seen) && !broke && page == |pages| + 1
      invariant pagesAttempted == pagesSucceeded == |pages| <= maxPages && pagesFailed == 0
      invariant Tracks(true, 1, target, source, pages, collected, seen.ids, dedupedCount, emptyPages, totalAvailable)
      invariant pages != [] ==> !Exhausted(true, 1, pages)
      invariant stopReason == TargetReached
      decreases maxPages - pagesAttempted
    {
      pagesAttempted := pagesAttempted + 1;
      var answer := source(page);
      if answer.Raised? {
        pagesFailed := pagesFailed + 1;
        stopReason := StopReasonOf(answer.exception);
        broke := true;
        break;
      }
      pagesSucceeded := pagesSucceeded + 1;
      TracksIds(true, 1, target, source, pages, collected, seen.ids, dedupedCount, emptyPages, totalAvailable);
      TracksSnoc(true, 1, target, source, pages, collected, seen.ids, dedupedCount, emptyPages, totalAvailable,
                 answer.page);
      totalAvailable := Some(answer.page.total);
      var pageJobs, dedupedNow := DedupeNewJobs(answer.page.items, seen);
      dedupedCount := dedupedCount + dedupedNow;
      pages := pages + [answer.page];
      if pageJobs == [] {
        emptyPages := emptyPages + 1;
        assert collected + pageJobs == collected;
      } else {
        emptyPages := 0;
        collected := collected + pageJobs;
      }
      if |collected| >= target {
        stopReason := TargetReached;
        broke := true;
        break;
      }
      if emptyPages >= 2 {
        stopReason := SourceExhausted;
        broke := true;
        break;
      }
      if answer.page.pageCount != 0 && page >= answer.page.pageCount {
        stopReason := SourceExhausted;
        broke := true;
        break;
      }
      page := page + 1;
    }
    if !broke {
      if |collected| < target {
        stopReason := MaxPagesReached;
      }
    }
    r := PaginatedFetch(collected, pagesAttempted, pagesSucceeded, pagesFailed, stopReason, dedupedCount,
                        totalAvailable);
    Concluded(true, 1, target, maxPages, source, pages, seen.ids, emptyPages, r);
    AccountedPages(true, 1, target, maxPages, source, pages, r);
  }

  /** A source whose pages start at offsets; it reports its own page limit. */
  method FetchByOffset(source: nat -> Answer, target: int, pageSize: nat, maxPages: nat)
    returns (r: PaginatedFetch)
    ensures Accounts(false, pageSize, target, maxPages, source, Pages(false, pageSize, target, maxPages, source), r)
  {
    hide Tracks, FirstOccurrences, Ids, Brought, OffsetAfter, Exhausted, Accounts, All, Pages;
    var seen := new SeenIds();
    var collected: seq<Item> := [];
    var dedupedCount: nat, pagesAttempted: nat, pagesSucceeded: nat, pagesFailed: nat := 0, 0, 0, 0;
    var stopReason := TargetReached;
    var totalAvailable := None;
    var emptyPages: nat := 0;
    var broke := false;
    var offset := 0;
    ghost var pages: seq<Page> := [];
    TracksNothing(false, pageSize, target, source);
    while |collected| < target && pagesAttempted < maxPages
      invariant fresh(seen) && !broke && offset == OffsetAfter(pages, pageSize)
      invariant pagesAttempted == pagesSucceeded == |pages| <= maxPages && pagesFailed == 0
      invariant Tracks(false, pageSize, target, source, pages, collected, seen.ids, dedupedCount, emptyPages,
                       totalAvailable)
      invariant pages != [] ==> !Exhausted(false, pageSize, pages)
      invariant stopReason == TargetReached
      decreases maxPages - pagesAttempted
    {
      pagesAttempted := pagesAttempted + 1;
      var answer := source(offset);
      if answer.Raised? {
        pagesFailed := pagesFailed + 1;
        stopReason := StopReasonOf(answer.exception);
        broke := true;
        break;
      }
      pagesSucceeded := pagesSucceeded + 1;
      TracksIds(false, pageSize, target, source, pages, collected, seen.ids, dedupedCount, emptyPages, totalAvailable);
      TracksSnoc(false, pageSize, target, source, pages, collected, seen.ids, dedupedCount, emptyPages, totalAvailable,
                 answer.page);
      totalAvailable := Some(answer.page.total);
      var pageJobs, dedupedNow := DedupeNewJobs(answer.page.items, seen);
      dedupedCount := dedupedCount + dedupedNow;
      pages := pages + [answer.page];
      if pageJobs == [] {
        emptyPages := emptyPages + 1;
        assert collected + pageJobs == collected;
      } else {
        emptyPages := 0;
        collected := collected + pageJobs;
      }
      if |collected| >= target {
        stopReason := TargetReached;
        broke := true;
        break;
      }
      if emptyPages >= 2 {
        stopReason := SourceExhausted;
        broke := true;
        break;
      }
      if offset + |answer.page.items| >= answer.page.total {
        stopReason := SourceExhausted;
        broke := true;
        break;
      }
      var observedLimit := if answer.page.limit >= 1 then answer.page.limit else 1;
      offset := offset + if observedLimit <= pageSize then observedLimit else pageSize;
    }
    if !broke {
      if |collected| < target {
        stopReason := MaxPagesReached;
      }
    }
    r := PaginatedFetch(collected, pagesAttempted, pagesSucceeded, pagesFailed, stopReason, dedupedCount,
                        totalAvailable);
    Concluded(false, pageSize, target, maxPages, source, pages, seen.ids, emptyPages, r);
    AccountedPages(false, pageSize, target, maxPages, source, pages, r);
  }

  // ---------------------------------------------------------------------
  // The source keeps what was asked for
  // ---------------------------------------------------------------------

  function Least(a: nat, b: nat): nat { if a <= b then a else b }
  function Most(a: nat, b: nat): nat { if a >= b then a else b }

  /** The jobs handed on. */
  function HandedOn(r: PaginatedFetch, limit: nat): seq<Item> {
    r.rawJobs[..Least(limit, |r.rawJobs|)]
  }

  method FetchRawJobs(fetched: PaginatedFetch, requestedLimit: nat) returns (selected: seq<Item>, truncated: nat)
    ensures selected == HandedOn(fetched, requestedLimit)
    ensures |selected| + truncated == |fetched.rawJobs|
  {
    selected := if requestedLimit <= |fetched.rawJobs| then fetched.rawJobs[..requestedLimit] else fetched.rawJobs;
    truncated := |fetched.rawJobs| - |selected|;
  }
}
