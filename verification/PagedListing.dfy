/** Paged fetches from a source that pages through one stable listing. */
module PagedListing {
  import opened PagedFetch
  import opened Wrappers

  predicate DistinctIds(listing: seq<Item>) {
    && (forall i | 0 <= i < |listing| :: listing[i].id.Some?)
    && (forall i, j | 0 <= i < j < |listing| :: listing[i].id != listing[j].id)
  }

  /** The page holds `count` items of the listing from an offset on, or what is left. */
  predicate Serves(listing: seq<Item>, page: Page, offset: nat, count: nat) {
    page.items == listing[Least(offset, |listing|)..Least(offset + count, |listing|)]
  }

  /** What a slice up to `upto` has beyond the known prefix. */
  function Beyond(listing: seq<Item>, known: nat, upto: nat): seq<Item>
    requires upto <= |listing|
  {
    if upto <= known then [] else listing[known..upto]
  }

  function Slice(listing: seq<Item>, from: nat, upto: nat): seq<Item>
    requires from <= upto <= |listing|
  {
    listing[from..upto]
  }

  lemma SliceSnoc(listing: seq<Item>, from: nat, upto: nat, known: nat)
    requires from <= upto < |listing|
    ensures Slice(listing, from, upto + 1) == Slice(listing, from, upto) + [listing[upto]]
    ensures Beyond(listing, known, upto + 1)
            == Beyond(listing, known, upto) + (if known <= upto then [listing[upto]] else [])
  {
  }

  lemma EmptySlice(listing: seq<Item>, from: nat, known: nat)
    requires from <= |listing| && from <= known
    ensures Slice(listing, from, from) == [] && Beyond(listing, known, from) == []
  {
  }

  lemma {:induction false} NewInSlice(listing: seq<Item>, from: nat, upto: nat, known: nat)
    requires DistinctIds(listing) && from <= upto <= |listing| && from <= known <= |listing|
    ensures FirstOccurrences(Slice(listing, from, upto), Ids(Slice(listing, 0, known))) == Beyond(listing, known, upto)
    decreases upto
  {
    hide FirstOccurrences, Ids, DistinctIds, Beyond, Slice;
    if from == upto {
      NoItems(Ids(Slice(listing, 0, known)));
      EmptySlice(listing, from, known);
    } else {
      NewInSlice(listing, from, upto - 1, known);
      IsNew(listing, from, upto - 1, known);
      SliceSnoc(listing, from, upto - 1, known);
      IdsSnoc(Slice(listing, from, upto - 1), listing[upto - 1], Ids(Slice(listing, 0, known)));
    }
  }

  /** The item behind a slice is new exactly when it lies beyond the known prefix. */
  lemma IsNew(listing: seq<Item>, from: nat, i: nat, known: nat)
    requires DistinctIds(listing) && from <= i < |listing| && known <= |listing|
    ensures listing[i].id.Some?
    ensures listing[i].id.value !in Ids(Slice(listing, 0, known)) + Ids(Slice(listing, from, i)) <==> known <= i
  {
    hide Ids;
    IdInSlice(listing, 0, known, i);
    IdInSlice(listing, from, i, i);
  }

  lemma IdInSlice(listing: seq<Item>, from: nat, upto: nat, i: nat)
    requires DistinctIds(listing) && from <= upto <= |listing| && i < |listing|
    ensures listing[i].id.value in Ids(listing[from..upto]) <==> from <= i < upto
  {
    var part := listing[from..upto];
    if from <= i < upto {
      assert part[i - from] == listing[i] && part[i - from] in part;
    }
    if listing[i].id.value in Ids(part) {
      var x :| x in part && x.id == listing[i].id;
      var k :| 0 <= k < |part| && part[k] == x;
      assert listing[from + k] == x;
    }
  }

  lemma IdsOfPrefixes(listing: seq<Item>, known: nat, from: nat, upto: nat)
    requires known <= |listing| && from <= upto <= |listing| && from <= known
    ensures Ids(listing[..known]) + Ids(listing[from..upto]) == Ids(listing[..Most(known, upto)])
  {
    var all := listing[..Most(known, upto)];
    assert forall x | x in listing[..known] :: x in all;
    assert forall x | x in listing[from..upto] :: x in all;
    assert all == listing[..known] + (if upto > known then listing[known..upto] else []);
    assert upto > known ==> forall x | x in listing[known..upto] :: x in listing[from..upto];
  }

  /** The pages so far cover the first `known` items of the listing. */
  ghost predicate Covers(listing: seq<Item>, pages: seq<Page>, known: nat) {
    && known <= |listing|
    && Collected(pages) == listing[..known]
    && Ids(All(pages)) == Ids(listing[..known])
  }

  lemma PrefixGrows(listing: seq<Item>, known: nat, upto: nat)
    requires known <= |listing| && upto <= |listing|
    ensures listing[..known] + Beyond(listing, known, upto) == listing[..Most(known, upto)]
    ensures Beyond(listing, known, upto) == [] <==> upto <= known
    ensures Slice(listing, 0, known) == listing[..known]
  {
  }

  lemma CoversMore(listing: seq<Item>, pages: seq<Page>, known: nat, page: Page, offset: nat, count: nat)
    requires DistinctIds(listing) && Covers(listing, pages, known)
    requires Serves(listing, page, offset, count) && Least(offset, |listing|) <= known
    ensures Covers(listing, pages + [page], Most(known, Least(offset + count, |listing|)))
    ensures Brought(pages + [page]) == [] <==> Least(offset + count, |listing|) <= known
  {
    var from, upto := Least(offset, |listing|), Least(offset + count, |listing|);
    assert page.items == Slice(listing, from, upto);
    IdsOfPrefixes(listing, known, from, upto);
    hide FirstOccurrences, Ids, All, Collected, Brought, DistinctIds, Slice, Beyond, Serves, Named;
    PageSnoc(pages, page);
    NewInSlice(listing, from, upto, known);
    PrefixGrows(listing, known, upto);
  }

  lemma CoversNothing(listing: seq<Item>)
    ensures Covers(listing, [], 0)
  {
    assert listing[..0] == [];
  }

  /** Where page k + 1 of a numbered source begins. */
  function PageStart(k: nat, size: nat): nat {
    if k == 0 then 0 else PageStart(k - 1, size) + size
  }

  /** The number of pages that a listing fills. */
  predicate IsPageCount(n: int, total: nat, size: nat) {
    n >= 0 && PageStart(n, size) >= total && (n > 0 ==> PageStart(n - 1, size) < total)
  }

  ghost predicate NumberedListing(listing: seq<Item>, size: nat, pages: seq<Page>) {
    forall k | 0 <= k < |pages| :: Serves(listing, pages[k], PageStart(k, size), size)
  }

  lemma {:induction false} PageStartGrows(a: nat, b: nat, size: nat)
    requires a <= b
    ensures PageStart(a, size) <= PageStart(b, size)
    decreases b
  {
    if a < b {
      PageStartGrows(a, b - 1, size);
    }
  }

  lemma NumberedParts(listing: seq<Item>, size: nat, pages: seq<Page>)
    requires NumberedListing(listing, size, pages) && pages != []
    ensures NumberedListing(listing, size, pages[..|pages| - 1])
    ensures Serves(listing, pages[|pages| - 1], PageStart(|pages| - 1, size), size)
  {
    hide Serves, PageStart;
    var front := pages[..|pages| - 1];
    forall k | 0 <= k < |front| ensures Serves(listing, front[k], PageStart(k, size), size) {
      assert front[k] == pages[k];
    }
  }

  lemma {:induction false} NumberedCovers(listing: seq<Item>, size: nat, pages: seq<Page>)
    requires DistinctIds(listing) && NumberedListing(listing, size, pages) && size >= 1
    ensures Covers(listing, pages, Least(PageStart(|pages|, size), |listing|))
    ensures pages != [] && Brought(pages) == [] ==> PageStart(|pages| - 1, size) >= |listing|
    decreases |pages|
  {
    hide Covers, Brought, DistinctIds, NumberedListing, Serves;
    if pages == [] {
      CoversNothing(listing);
    } else {
      var front, last := pages[..|pages| - 1], pages[|pages| - 1];
      NumberedParts(listing, size, pages);
      assert pages == front + [last];
      NumberedCovers(listing, size, front);
      CoversMore(listing, front, Least(PageStart(|front|, size), |listing|), last, PageStart(|front|, size), size);
    }
  }

  /** A source that pages through the listing. */
  ghost predicate NumberedSource(listing: seq<Item>, size: nat, source: nat -> Answer) {
    forall p: nat | p >= 1 && source(p).Got? :: Serves(listing, source(p).page, PageStart(p - 1, size), size)
  }

  /** A source that reports its true number of pages, or none. */
  ghost predicate HonestPageCount(listing: seq<Item>, size: nat, source: nat -> Answer) {
    forall p: nat | p >= 1 && source(p).Got? ::
      source(p).page.pageCount == 0 || IsPageCount(source(p).page.pageCount, |listing|, size)
  }

  lemma NumberedPages(listing: seq<Item>, size: nat, target: int, source: nat -> Answer, pages: seq<Page>)
    requires NumberedSource(listing, size, source) && Follows(true, 1, target, source, pages)
    ensures NumberedListing(listing, size, pages)
    ensures forall k | 0 <= k < |pages| :: source(k + 1) == Got(pages[k])
  {
    hide Serves, PageStart, GoesOn;
    forall k | 0 <= k < |pages|
      ensures Serves(listing, pages[k], PageStart(k, size), size) && source(k + 1) == Got(pages[k])
    {
      assert source(Position(true, 1, pages[..k])) == Got(pages[k]);
    }
  }

  /** On a stable listing a numbered fetch collects a prefix, whatever page count the source
      reports. When it reports the source exhausted and the count is honest, or missing, it
      has collected all of it. */
  lemma NumberedFetchIsFaithful(listing: seq<Item>, size: nat, target: int, maxPages: nat, source: nat -> Answer,
                                r: PaginatedFetch)
    requires DistinctIds(listing) && size >= 1 && NumberedSource(listing, size, source)
    requires Accounts(true, 1, target, maxPages, source, Pages(true, 1, target, maxPages, source), r)
    ensures r.rawJobs == listing[..Least(PageStart(r.pagesSucceeded, size), |listing|)]
    ensures r.stopReason == SourceExhausted && HonestPageCount(listing, size, source) ==> r.rawJobs == listing
  {
    hide Brought, DistinctIds, Named, All, Follows, Pages, NumberedSource;
    var pages := Pages(true, 1, target, maxPages, source);
    NumberedPages(listing, size, target, source, pages);
    NumberedCovers(listing, size, pages);
    if r.stopReason == SourceExhausted && HonestPageCount(listing, size, source) {
      StoppedBySource(true, 1, target, maxPages, source, pages, r);
      var last := pages[|pages| - 1];
      assert source(|pages|) == Got(last);
      if EmptyPages(pages) >= 2 {
        TwoEmptyPages(pages);
      } else {
        PageStartGrows(last.pageCount, |pages|, size);
      }
      assert listing[..|listing|] == listing;
    }
  }

  lemma StoppedBySource(numbered: bool, pageSize: nat, target: int, maxPages: nat, source: nat -> Answer,
                        pages: seq<Page>, r: PaginatedFetch)
    requires Accounts(numbered, pageSize, target, maxPages, source, pages, r)
    requires r.stopReason == SourceExhausted
    ensures pages != [] && Exhausted(numbered, pageSize, pages)
  {
  }

  ghost predicate OffsetListing(listing: seq<Item>, pageSize: nat, pages: seq<Page>) {
    forall k | 0 <= k < |pages| ::
      && pages[k].limit >= 1 && pages[k].total == |listing|
      && Serves(listing, pages[k], OffsetAfter(pages[..k], pageSize), pages[k].limit)
  }

  lemma OffsetParts(listing: seq<Item>, pageSize: nat, pages: seq<Page>)
    requires OffsetListing(listing, pageSize, pages) && pages != []
    ensures var front, last := pages[..|pages| - 1], pages[|pages| - 1];
            && OffsetListing(listing, pageSize, front)
            && last.limit >= 1 && last.total == |listing|
            && Serves(listing, last, OffsetAfter(front, pageSize), last.limit)
            && OffsetAfter(pages, pageSize) <= OffsetAfter(front, pageSize) + last.limit
  {
    hide Serves;
    var front := pages[..|pages| - 1];
    assert OffsetAfter(pages, pageSize) == OffsetAfter(front, pageSize) + Advance(pages[|pages| - 1], pageSize);
    hide OffsetAfter;
    forall k | 0 <= k < |front|
      ensures front[k].limit >= 1 && front[k].total == |listing|
      ensures Serves(listing, front[k], OffsetAfter(front[..k], pageSize), front[k].limit)
    {
      assert pages[k] == front[k] && front[..k] == pages[..k];
    }
  }

  predicate HasLimits(pages: seq<Page>) {
    forall k | 0 <= k < |pages| :: pages[k].limit >= 1
  }

  lemma LimitsAreReported(listing: seq<Item>, pageSize: nat, pages: seq<Page>)
    requires OffsetListing(listing, pageSize, pages)
    ensures HasLimits(pages)
  {
  }

  /** How much of the listing the pages of an offset source reach. */
  function Reach(listing: seq<Item>, pageSize: nat, pages: seq<Page>): (reach: nat)
    requires HasLimits(pages)
    ensures reach <= |listing|
  {
    if pages == [] then 0
    else
      var front := pages[..|pages| - 1];
      assert forall k | 0 <= k < |front| :: front[k] == pages[k];
      Most(Reach(listing, pageSize, front),
           Least(OffsetAfter(front, pageSize) + pages[|pages| - 1].limit, |listing|))
  }

  ghost predicate CoversItsReach(listing: seq<Item>, pageSize: nat, pages: seq<Page>)
    requires HasLimits(pages)
  {
    && Covers(listing, pages, Reach(listing, pageSize, pages))
    && Least(OffsetAfter(pages, pageSize), |listing|) <= Reach(listing, pageSize, pages)
  }

  lemma ReachSnoc(listing: seq<Item>, pageSize: nat, pages: seq<Page>, page: Page)
    requires HasLimits(pages) && page.limit >= 1
    ensures HasLimits(pages + [page])
    ensures Reach(listing, pageSize, pages + [page])
            == Most(Reach(listing, pageSize, pages), Least(OffsetAfter(pages, pageSize) + page.limit, |listing|))
  {
    assert (pages + [page])[..|pages|] == pages;
  }

  lemma ReachCovered(listing: seq<Item>, pageSize: nat, pages: seq<Page>, page: Page)
    requires DistinctIds(listing) && HasLimits(pages) && page.limit >= 1
    requires CoversItsReach(listing, pageSize, pages)
    requires Serves(listing, page, OffsetAfter(pages, pageSize), page.limit)
    ensures HasLimits(pages + [page]) && CoversItsReach(listing, pageSize, pages + [page])
    ensures Brought(pages + [page]) == [] <==>
            Least(OffsetAfter(pages, pageSize) + page.limit, |listing|) <= Reach(listing, pageSize, pages)
  {
    hide Covers, Brought, DistinctIds, Serves, HasLimits, OffsetAfter, Reach;
    ReachSnoc(listing, pageSize, pages, page);
    OffsetSnoc(pages, page, pageSize);
    CoversMore(listing, pages, Reach(listing, pageSize, pages), page, OffsetAfter(pages, pageSize), page.limit);
  }

  lemma {:induction false} OffsetCovers(listing: seq<Item>, pageSize: nat, pages: seq<Page>)
    requires DistinctIds(listing) && OffsetListing(listing, pageSize, pages)
    ensures HasLimits(pages) && CoversItsReach(listing, pageSize, pages)
    decreases |pages|
  {
    hide Covers, DistinctIds, OffsetListing, Serves, HasLimits;
    LimitsAreReported(listing, pageSize, pages);
    if pages == [] {
      CoversNothing(listing);
    } else {
      hide CoversItsReach, OffsetAfter;
      var front, last := pages[..|pages| - 1], pages[|pages| - 1];
      OffsetParts(listing, pageSize, pages);
      assert pages == front + [last];
      OffsetCovers(listing, pageSize, front);
      ReachCovered(listing, pageSize, front, last);
    }
  }

  lemma TwoEmptyPages(pages: seq<Page>)
    requires EmptyPages(pages) >= 2
    ensures |pages| >= 2 && Brought(pages) == []
  {
  }

  /** A source that answers every offset with the listing from there on, up to a limit of
      its own choosing. */
  ghost predicate OffsetSource(listing: seq<Item>, source: nat -> Answer) {
    forall offset: nat | source(offset).Got? ::
      && source(offset).page.limit >= 1 && source(offset).page.total == |listing|
      && Serves(listing, source(offset).page, offset, source(offset).page.limit)
  }

  lemma OffsetPages(listing: seq<Item>, pageSize: nat, target: int, source: nat -> Answer, pages: seq<Page>)
    requires OffsetSource(listing, source) && Follows(false, pageSize, target, source, pages)
    ensures OffsetListing(listing, pageSize, pages)
  {
    hide Serves, GoesOn, OffsetAfter;
    forall k | 0 <= k < |pages|
      ensures pages[k].limit >= 1 && pages[k].total == |listing|
      ensures Serves(listing, pages[k], OffsetAfter(pages[..k], pageSize), pages[k].limit)
    {
      assert source(OffsetAfter(pages[..k], pageSize)) == Got(pages[k]);
    }
  }

  // ---------------------------------------------------------------------
  // The offsets, told from the source alone
  // ---------------------------------------------------------------------

  function LimitAt(source: nat -> Answer, offset: nat): nat {
    if source(offset).Got? && source(offset).page.limit >= 1 then source(offset).page.limit else 1
  }

  /** The offset of request k, if there is one. */
  function OffsetAt(source: nat -> Answer, pageSize: nat, k: nat): nat {
    if k == 0 then 0
    else
      var before := OffsetAt(source, pageSize, k - 1);
      before + Least(LimitAt(source, before), pageSize)
  }

  /** Where page k ends. */
  function EndAt(source: nat -> Answer, pageSize: nat, k: nat): nat {
    OffsetAt(source, pageSize, k) + LimitAt(source, OffsetAt(source, pageSize, k))
  }

  /** How far the pages before page k reach. */
  function ReachedBy(source: nat -> Answer, pageSize: nat, k: nat): nat {
    if k == 0 then 0 else Most(ReachedBy(source, pageSize, k - 1), EndAt(source, pageSize, k - 1))
  }

  /** The page ends inside what the pages before it have reached. */
  predicate Idle(source: nat -> Answer, pageSize: nat, k: nat) {
    EndAt(source, pageSize, k) <= ReachedBy(source, pageSize, k)
  }

  /** The first `n` requests are answered, with pages that end short of the total. */
  predicate EndsShort(source: nat -> Answer, pageSize: nat, total: nat, n: nat) {
    forall j: nat | j < n :: source(OffsetAt(source, pageSize, j)).Got? && EndAt(source, pageSize, j) < total
  }

  /** Two idle pages in a row, with the total still ahead. */
  predicate Stalls(source: nat -> Answer, pageSize: nat, total: nat, k: nat) {
    EndsShort(source, pageSize, total, k + 2) && Idle(source, pageSize, k) && Idle(source, pageSize, k + 1)
  }

  /** The page got behind k others is the answer to request k. */
  lemma PageFollows(listing: seq<Item>, pageSize: nat, target: int, source: nat -> Answer, pages: seq<Page>, k: nat)
    requires OffsetSource(listing, source) && Follows(false, pageSize, target, source, pages) && k < |pages|
    ensures var offset := OffsetAfter(pages[..k], pageSize);
            source(offset) == Got(pages[k]) && LimitAt(source, offset) == pages[k].limit && pages[k].limit >= 1
  {
    hide Serves, GoesOn, OffsetAfter;
    assert source(Position(false, pageSize, pages[..k])) == Got(pages[k]);
  }

  /** One more page: the offset and the reach move as the source alone tells. */
  lemma PageMoves(listing: seq<Item>, pageSize: nat, source: nat -> Answer, front: seq<Page>, page: Page, k: nat)
    requires OffsetAfter(front, pageSize) == OffsetAt(source, pageSize, k) && HasLimits(front) && page.limit >= 1
    requires Reach(listing, pageSize, front) == Least(ReachedBy(source, pageSize, k), |listing|)
    requires LimitAt(source, OffsetAt(source, pageSize, k)) == page.limit
    ensures HasLimits(front + [page])
    ensures OffsetAfter(front + [page], pageSize) == OffsetAt(source, pageSize, k + 1)
    ensures Reach(listing, pageSize, front + [page]) == Least(ReachedBy(source, pageSize, k + 1), |listing|)
  {
    hide OffsetAfter, Reach, HasLimits, LimitAt;
    ReachSnoc(listing, pageSize, front, page);
    OffsetSnoc(front, page, pageSize);
  }

  lemma {:induction false} PagesReach(listing: seq<Item>, pageSize: nat, target: int, source: nat -> Answer,
                                      pages: seq<Page>, k: nat)
    requires OffsetSource(listing, source) && Follows(false, pageSize, target, source, pages) && k <= |pages|
    ensures OffsetAfter(pages[..k], pageSize) == OffsetAt(source, pageSize, k)
    ensures HasLimits(pages[..k])
    ensures Reach(listing, pageSize, pages[..k]) == Least(ReachedBy(source, pageSize, k), |listing|)
    ensures k < |pages| ==>
              && source(OffsetAt(source, pageSize, k)) == Got(pages[k])
              && LimitAt(source, OffsetAt(source, pageSize, k)) == pages[k].limit && pages[k].limit >= 1
  {
    hide OffsetSource, Follows, LimitAt;
    if k > 0 {
      hide OffsetAfter, OffsetAt, Reach, ReachedBy, HasLimits;
      PagesReach(listing, pageSize, target, source, pages, k - 1);
      assert pages[..k] == pages[..k - 1] + [pages[k - 1]];
      PageMoves(listing, pageSize, source, pages[..k - 1], pages[k - 1], k - 1);
    }
    if k < |pages| {
      PageFollows(listing, pageSize, target, source, pages, k);
    }
  }

  lemma {:induction false} ShortReach(source: nat -> Answer, pageSize: nat, total: nat, n: nat, k: nat)
    requires EndsShort(source, pageSize, total, n) && 0 < k <= n
    ensures ReachedBy(source, pageSize, k) < total
  {
    hide EndAt, OffsetAt;
    if k > 1 {
      ShortReach(source, pageSize, total, n, k - 1);
    }
    assert EndAt(source, pageSize, k - 1) < total by { assert source(OffsetAt(source, pageSize, k - 1)).Got?; }
  }

  /** Whether a page says that it is the last is whether it reaches the total. */
  lemma LastPageEnds(listing: seq<Item>, pageSize: nat, target: int, source: nat -> Answer, pages: seq<Page>, k: nat)
    requires OffsetSource(listing, source) && Follows(false, pageSize, target, source, pages) && k < |pages|
    ensures SaysLast(false, pageSize, pages[..k + 1]) <==> EndAt(source, pageSize, k) >= |listing|
  {
    hide GoesOn, OffsetAfter, OffsetAt, Reach, ReachedBy, HasLimits;
    PagesReach(listing, pageSize, target, source, pages, k);
    assert pages[..k + 1][..k] == pages[..k];
    assert Serves(listing, pages[k], OffsetAt(source, pageSize, k), pages[k].limit);
  }

  /** Every page but the last ends short of the total. */
  lemma EarlierPagesEndShort(listing: seq<Item>, pageSize: nat, target: int, source: nat -> Answer, pages: seq<Page>)
    requires OffsetSource(listing, source) && Follows(false, pageSize, target, source, pages) && pages != []
    ensures EndsShort(source, pageSize, |listing|, |pages| - 1)
  {
    hide OffsetSource, EndAt, OffsetAt, SaysLast, EmptyPages, Collected, HasLimits, Reach, ReachedBy, OffsetAfter;
    forall j: nat | j < |pages| - 1
      ensures source(OffsetAt(source, pageSize, j)).Got? && EndAt(source, pageSize, j) < |listing|
    {
      PagesReach(listing, pageSize, target, source, pages, j);
      LastPageEnds(listing, pageSize, target, source, pages, j);
      assert GoesOn(false, pageSize, target, pages[..j + 1]);
    }
  }

  lemma WholePrefix(listing: seq<Item>, n: nat)
    requires n <= |listing|
    ensures listing[..n] == listing <==> n == |listing|
  {
    assert |listing[..n]| == n;
    assert listing[..|listing|] == listing;
  }

  /** On a stable listing an offset fetch collects a prefix, whatever limits the source
      reports. A fetch that reports the source exhausted is complete exactly when its last
      page, by its offset and limit, reaches the total. */
  lemma OffsetFetchIsFaithful(listing: seq<Item>, pageSize: nat, target: int, maxPages: nat, source: nat -> Answer,
                              r: PaginatedFetch)
    requires DistinctIds(listing) && pageSize >= 1 && OffsetSource(listing, source)
    requires Accounts(false, pageSize, target, maxPages, source, Pages(false, pageSize, target, maxPages, source), r)
    ensures r.rawJobs <= listing
    ensures r.rawJobs == listing[..Least(ReachedBy(source, pageSize, r.pagesSucceeded), |listing|)]
    ensures r.stopReason == SourceExhausted ==>
              && r.pagesSucceeded >= 1
              && (r.rawJobs == listing <==> EndAt(source, pageSize, r.pagesSucceeded - 1) >= |listing|)
  {
    hide Brought, DistinctIds, Named, All, Follows, OffsetListing, HasLimits, Pages, OffsetSource, Reach,
         Exhausted, EndAt, ReachedBy, EndsShort, OffsetAfter;
    var pages := Pages(false, pageSize, target, maxPages, source);
    var n := |pages|;
    OffsetPages(listing, pageSize, target, source, pages);
    OffsetCovers(listing, pageSize, pages);
    assert pages[..n] == pages;
    PagesReach(listing, pageSize, target, source, pages, n);
    var reached := Least(ReachedBy(source, pageSize, n), |listing|);
    if r.stopReason == SourceExhausted {
      StoppedBySource(false, pageSize, target, maxPages, source, pages, r);
      EarlierPagesEndShort(listing, pageSize, target, source, pages);
      WholePrefix(listing, reached);
      ReachesTotal(source, pageSize, |listing|, n - 1);
    }
  }

  lemma ReachesTotal(source: nat -> Answer, pageSize: nat, total: nat, n: nat)
    requires EndsShort(source, pageSize, total, n)
    ensures ReachedBy(source, pageSize, n + 1) >= total <==> EndAt(source, pageSize, n) >= total
  {
    hide EndsShort, EndAt, OffsetAt;
    if n > 0 {
      ShortReach(source, pageSize, total, n, n);
    }
  }

  // ---------------------------------------------------------------------
  // Which sources are always fetched completely
  // ---------------------------------------------------------------------

  ghost predicate AlwaysComplete(listing: seq<Item>, pageSize: nat, source: nat -> Answer) {
    forall target: int, maxPages: nat, r: PaginatedFetch
      | Accounts(false, pageSize, target, maxPages, source, Pages(false, pageSize, target, maxPages, source), r) ::
      r.stopReason == SourceExhausted ==> r.rawJobs == listing
  }

  /** A page brings nothing new exactly when it is idle or the listing is already covered. */
  lemma IdlePageBringsNothing(listing: seq<Item>, pageSize: nat, target: int, source: nat -> Answer,
                              pages: seq<Page>, k: nat)
    requires DistinctIds(listing) && OffsetSource(listing, source)
    requires Follows(false, pageSize, target, source, pages) && k < |pages|
    requires EndAt(source, pageSize, k) < |listing|
    ensures Brought(pages[..k + 1]) == [] <==> Idle(source, pageSize, k)
  {
    hide Brought, DistinctIds, OffsetAfter, OffsetAt, Reach, ReachedBy, HasLimits, OffsetListing, CoversItsReach,
         Follows, LimitAt, Serves, OffsetSource;
    var front := pages[..k];
    PagesReach(listing, pageSize, target, source, pages, k);
    FollowsPrefix(pageSize, target, source, pages, k);
    OffsetPages(listing, pageSize, target, source, front);
    OffsetCovers(listing, pageSize, front);
    PageIsServed(listing, source, OffsetAt(source, pageSize, k));
    ReachCovered(listing, pageSize, front, pages[k]);
    assert pages[..k + 1] == front + [pages[k]];
  }

  lemma PageIsServed(listing: seq<Item>, source: nat -> Answer, offset: nat)
    requires OffsetSource(listing, source) && source(offset).Got?
    ensures source(offset).page.limit >= 1
    ensures Serves(listing, source(offset).page, offset, source(offset).page.limit)
  {
  }

  lemma FollowsPrefix(pageSize: nat, target: int, source: nat -> Answer, pages: seq<Page>, k: nat)
    requires Follows(false, pageSize, target, source, pages) && k <= |pages|
    ensures Follows(false, pageSize, target, source, pages[..k])
  {
    hide GoesOn, Position;
    forall j | 0 <= j < k
      ensures GoesOn(false, pageSize, target, pages[..k][..j])
      ensures source(Position(false, pageSize, pages[..k][..j])) == Got(pages[..k][j])
    {
      assert pages[..k][..j] == pages[..j];
    }
  }

  /** A fetch that reports the source exhausted too early ends in a stall. */
  lemma ExhaustedEarlyStalls(listing: seq<Item>, pageSize: nat, target: int, maxPages: nat, source: nat -> Answer,
                             r: PaginatedFetch)
    requires DistinctIds(listing) && pageSize >= 1 && OffsetSource(listing, source)
    requires Accounts(false, pageSize, target, maxPages, source, Pages(false, pageSize, target, maxPages, source), r)
    requires r.stopReason == SourceExhausted && r.rawJobs != listing
    ensures r.pagesSucceeded >= 2 && Stalls(source, pageSize, |listing|, r.pagesSucceeded - 2)
  {
    hide Brought, DistinctIds, Named, All, Follows, Pages, OffsetSource, EndAt, OffsetAt, ReachedBy, OffsetAfter,
         Collected, SaysLast, Idle;
    var pages := Pages(false, pageSize, target, maxPages, source);
    var n := |pages|;
    assert pages[..n] == pages;
    OffsetFetchIsFaithful(listing, pageSize, target, maxPages, source, r);
    StoppedBySource(false, pageSize, target, maxPages, source, pages, r);
    EarlierPagesEndShort(listing, pageSize, target, source, pages);
    LastPageEnds(listing, pageSize, target, source, pages, n - 1);
    PagesReach(listing, pageSize, target, source, pages, n - 1);
    TwoEmptyPages(pages);
    IdlePageBringsNothing(listing, pageSize, target, source, pages, n - 1);
    IdlePageBringsNothing(listing, pageSize, target, source, pages, n - 2);
    assert pages[..n - 1] == pages[..|pages| - 1];
  }

  /** The first pages of the source. */
  function FirstPages(source: nat -> Answer, pageSize: nat, total: nat, n: nat): seq<Page>
    requires EndsShort(source, pageSize, total, n)
  {
    if n == 0 then []
    else
      assert source(OffsetAt(source, pageSize, n - 1)).Got?;
      FirstPages(source, pageSize, total, n - 1) + [source(OffsetAt(source, pageSize, n - 1)).page]
  }

  /** Short of the first stall a fetch of the whole listing goes on. */
  lemma {:induction false} FetchGoesOn(listing: seq<Item>, pageSize: nat, source: nat -> Answer, k: nat, n: nat)
    requires DistinctIds(listing) && pageSize >= 1 && OffsetSource(listing, source)
    requires EndsShort(source, pageSize, |listing|, k + 2) && n <= k + 2
    requires forall i: nat | i < k :: !Stalls(source, pageSize, |listing|, i)
    ensures var pages := FirstPages(source, pageSize, |listing|, n);
            && |pages| == n && Follows(false, pageSize, |listing|, source, pages)
            && (n <= k + 1 ==> GoesOn(false, pageSize, |listing|, pages))
            && (n == k + 2 ==> |Collected(pages)| < |listing|)
            && (n == k + 2 && Stalls(source, pageSize, |listing|, k) ==> EmptyPages(pages) >= 2)
  {
    hide DistinctIds, OffsetSource, OffsetAt, EndAt, ReachedBy, Follows, GoesOn, Brought, OffsetAfter, SaysLast,
         Collected, Stalls, EmptyPages;
    var pages := FirstPages(source, pageSize, |listing|, n);
    assert source(OffsetAt(source, pageSize, 0)).Got? && EndAt(source, pageSize, 0) < |listing|;
    if n == 0 {
      NothingFetched(pageSize, |listing|, source);
    } else {
      var front := FirstPages(source, pageSize, |listing|, n - 1);
      FetchGoesOn(listing, pageSize, source, k, n - 1);
      PagesReach(listing, pageSize, |listing|, source, front, n - 1);
      assert front[..n - 1] == front;
      FollowsSnoc(false, pageSize, |listing|, source, front, source(OffsetAt(source, pageSize, n - 1)).page);
      ShortFetchGoesOn(listing, pageSize, source, pages);
      if n >= 2 {
        StallIsTwoEmptyPages(listing, pageSize, source, pages);
      }
    }
  }

  lemma NothingFetched(pageSize: nat, target: int, source: nat -> Answer)
    requires target > 0
    ensures Follows(false, pageSize, target, source, []) && GoesOn(false, pageSize, target, [])
  {
  }

  lemma ShortFetchGoesOn(listing: seq<Item>, pageSize: nat, source: nat -> Answer, pages: seq<Page>)
    requires DistinctIds(listing) && pageSize >= 1 && OffsetSource(listing, source) && pages != []
    requires Follows(false, pageSize, |listing|, source, pages)
    requires EndsShort(source, pageSize, |listing|, |pages|)
    ensures |Collected(pages)| < |listing|
    ensures GoesOn(false, pageSize, |listing|, pages) <==> EmptyPages(pages) < 2
    ensures |pages| == 1 ==> EmptyPages(pages) < 2
  {
    hide DistinctIds, OffsetSource, Follows, OffsetAt, EndAt, ReachedBy, Brought, SaysLast, OffsetListing, Reach,
         OffsetAfter, All;
    var n := |pages|;
    assert pages[..n] == pages;
    OffsetPages(listing, pageSize, |listing|, source, pages);
    OffsetCovers(listing, pageSize, pages);
    PagesReach(listing, pageSize, |listing|, source, pages, n);
    ShortReach(source, pageSize, |listing|, n, n);
    LastPageEnds(listing, pageSize, |listing|, source, pages, n - 1);
    assert source(OffsetAt(source, pageSize, n - 1)).Got? && EndAt(source, pageSize, n - 1) < |listing|;
  }

  lemma StallIsTwoEmptyPages(listing: seq<Item>, pageSize: nat, source: nat -> Answer, pages: seq<Page>)
    requires DistinctIds(listing) && OffsetSource(listing, source) && |pages| >= 2
    requires Follows(false, pageSize, |listing|, source, pages)
    requires EndsShort(source, pageSize, |listing|, |pages|)
    ensures EmptyPages(pages) >= 2 <==> Stalls(source, pageSize, |listing|, |pages| - 2)
  {
    hide DistinctIds, OffsetSource, Follows, OffsetAt, EndAt, Idle, Brought;
    var n := |pages|;
    assert pages[..n] == pages;
    assert source(OffsetAt(source, pageSize, n - 1)).Got? && EndAt(source, pageSize, n - 1) < |listing|;
    assert source(OffsetAt(source, pageSize, n - 2)).Got? && EndAt(source, pageSize, n - 2) < |listing|;
    IdlePageBringsNothing(listing, pageSize, |listing|, source, pages, n - 1);
    IdlePageBringsNothing(listing, pageSize, |listing|, source, pages, n - 2);
    TwoEmptiesAtTheEnd(pages);
  }

  lemma TwoEmptiesAtTheEnd(pages: seq<Page>)
    requires |pages| >= 2
    ensures EmptyPages(pages) >= 2 <==> Brought(pages) == [] && Brought(pages[..|pages| - 1]) == []
  {
    hide Brought;
  }

  /** What a fetch reports that stopped behind these pages. */
  function ReportOf(pageSize: nat, target: int, pages: seq<Page>): PaginatedFetch
    requires pages != []
  {
    FewerThanNamed(All(pages), {});
    PaginatedFetch(Collected(pages), |pages|, |pages|, 0,
                   if |Collected(pages)| >= target then TargetReached else SourceExhausted,
                   Named(All(pages)) - |Collected(pages)|, Some(pages[|pages| - 1].total))
  }

  lemma StoppedFetchIsAccounted(pageSize: nat, target: int, maxPages: nat, source: nat -> Answer, pages: seq<Page>)
    requires pages != [] && |pages| <= maxPages && Follows(false, pageSize, target, source, pages)
    requires Exhausted(false, pageSize, pages)
    ensures Accounts(false, pageSize, target, maxPages, source, pages, ReportOf(pageSize, target, pages))
  {
    hide Follows, Exhausted, All, Collected, Position;
  }

  lemma FirstStallEndsTheFetch(listing: seq<Item>, pageSize: nat, source: nat -> Answer, k: nat)
    requires DistinctIds(listing) && pageSize >= 1 && OffsetSource(listing, source)
    requires Stalls(source, pageSize, |listing|, k)
    requires forall i: nat | i < k :: !Stalls(source, pageSize, |listing|, i)
    ensures !AlwaysComplete(listing, pageSize, source)
  {
    hide DistinctIds, OffsetSource, Follows, SaysLast, EmptyPages, Collected, Idle, EndsShort, Accounts;
    var pages := FirstPages(source, pageSize, |listing|, k + 2);
    FetchGoesOn(listing, pageSize, source, k, k + 2);
    StoppedFetchIsAccounted(pageSize, |listing|, k + 2, source, pages);
    var r := ReportOf(pageSize, |listing|, pages);
    AccountedPages(false, pageSize, |listing|, k + 2, source, pages, r);
    assert r.rawJobs != listing;
  }

  lemma {:induction false} SomeFirstStall(pageSize: nat, source: nat -> Answer, total: nat, k: nat) returns (first: nat)
    requires Stalls(source, pageSize, total, k)
    ensures Stalls(source, pageSize, total, first) && forall i: nat | i < first :: !Stalls(source, pageSize, total, i)
    decreases k
  {
    hide Stalls;
    first := k;
    if i: nat :| i < k && Stalls(source, pageSize, total, i) {
      first := SomeFirstStall(pageSize, source, total, i);
    }
  }

  /** Every fetch that reports the source exhausted is complete, for any target and page
      budget, exactly when the source never answers two idle pages in a row with the total
      still ahead. */
  lemma CompleteUnlessStalled(listing: seq<Item>, pageSize: nat, source: nat -> Answer)
    requires DistinctIds(listing) && pageSize >= 1 && OffsetSource(listing, source)
    ensures AlwaysComplete(listing, pageSize, source) <==> forall k: nat :: !Stalls(source, pageSize, |listing|, k)
  {
    hide DistinctIds, OffsetSource, Stalls, Accounts, Pages;
    if k: nat :| Stalls(source, pageSize, |listing|, k) {
      var first := SomeFirstStall(pageSize, source, |listing|, k);
      FirstStallEndsTheFetch(listing, pageSize, source, first);
    } else {
      forall target: int, maxPages: nat, r: PaginatedFetch
        | Accounts(false, pageSize, target, maxPages, source, Pages(false, pageSize, target, maxPages, source), r)
          && r.stopReason == SourceExhausted
        ensures r.rawJobs == listing
      {
        if r.rawJobs != listing {
          ExhaustedEarlyStalls(listing, pageSize, target, maxPages, source, r);
        }
      }
    }
  }

  /** A source that keeps its limit never stalls. */
  lemma SteadyLimitNeverStalls(source: nat -> Answer, pageSize: nat, total: nat, limit: nat, k: nat)
    requires pageSize >= 1 && forall offset: nat :: LimitAt(source, offset) == limit
    ensures !Stalls(source, pageSize, total, k)
  {
    var here := OffsetAt(source, pageSize, k);
    assert LimitAt(source, here) == limit && limit >= 1;
    SteadyReach(source, pageSize, limit, k + 1);
    assert OffsetAt(source, pageSize, k + 1) == here + Least(limit, pageSize);
  }

  lemma {:induction false} SteadyReach(source: nat -> Answer, pageSize: nat, limit: nat, k: nat)
    requires k >= 1 && forall offset: nat :: LimitAt(source, offset) == limit
    ensures ReachedBy(source, pageSize, k) == EndAt(source, pageSize, k - 1)
  {
    hide LimitAt;
    if k > 1 {
      SteadyReach(source, pageSize, limit, k - 1);
    } else {
      assert ReachedBy(source, pageSize, 0) == 0;
    }
  }

  /** Four items, asked for one by one; the source answers the first request with three of
      them and then keeps to one. */
  function ShrinkingLimit(listing: seq<Item>): nat -> Answer {
    (offset: nat) =>
      var limit := if offset == 0 then 3 else 1;
      Got(Page(listing[Least(offset, |listing|)..Least(offset + limit, |listing|)], 0, limit, |listing|))
  }

  lemma StallsBehindThree(source: nat -> Answer)
    requires source(0).Got? && source(1).Got? && source(2).Got?
    requires LimitAt(source, 0) == 3 && LimitAt(source, 1) == LimitAt(source, 2) == 1
    ensures Stalls(source, 1, 4, 1)
  {
    hide LimitAt;
    assert OffsetAt(source, 1, 0) == 0 && OffsetAt(source, 1, 1) == 1;
    assert OffsetAt(source, 1, 2) == 2;
    assert ReachedBy(source, 1, 0) == 0 && ReachedBy(source, 1, 1) == 3;
    hide OffsetAt;
    assert ReachedBy(source, 1, 2) == 3;
  }

  lemma ShrinkingLimitIsAnOffsetSource(listing: seq<Item>)
    ensures OffsetSource(listing, ShrinkingLimit(listing))
    ensures var source := ShrinkingLimit(listing);
            && source(0).Got? && source(1).Got? && source(2).Got?
            && LimitAt(source, 0) == 3 && LimitAt(source, 1) == LimitAt(source, 2) == 1
  {
  }

  /** The pages at offsets one and two lie inside the first one: the fetch takes the source
      for exhausted and misses the fourth item. */
  lemma ShrinkingLimitEndsEarly(listing: seq<Item>)
    requires DistinctIds(listing) && |listing| == 4
    ensures OffsetSource(listing, ShrinkingLimit(listing))
    ensures Stalls(ShrinkingLimit(listing), 1, 4, 1) && !AlwaysComplete(listing, 1, ShrinkingLimit(listing))
  {
    hide DistinctIds, AlwaysComplete, Stalls, OffsetSource, ShrinkingLimit, LimitAt;
    ShrinkingLimitIsAnOffsetSource(listing);
    StallsBehindThree(ShrinkingLimit(listing));
    CompleteUnlessStalled(listing, 1, ShrinkingLimit(listing));
  }

  // ---------------------------------------------------------------------
  // What is handed on
  // ---------------------------------------------------------------------

  /** From a numbered listing the source hands on a prefix no longer than the limit; unless
      the fetch failed or ran out of pages, that prefix holds all that was asked for. */
  lemma NumberedJobsHandedOn(listing: seq<Item>, size: nat, target: int, limit: nat, maxPages: nat,
                             source: nat -> Answer, r: PaginatedFetch)
    requires DistinctIds(listing) && size >= 1 && target <= limit
    requires NumberedSource(listing, size, source) && HonestPageCount(listing, size, source)
    requires Accounts(true, 1, target, maxPages, source, Pages(true, 1, target, maxPages, source), r)
    ensures HandedOn(r, limit) <= listing && |HandedOn(r, limit)| <= limit
    ensures r.stopReason == TargetReached || r.stopReason == SourceExhausted ==>
              |HandedOn(r, limit)| >= target || HandedOn(r, limit) == listing
  {
    hide Pages, DistinctIds, NumberedSource, HonestPageCount, PageStart;
    NumberedFetchIsFaithful(listing, size, target, maxPages, source, r);
    ReachedTarget(true, 1, target, maxPages, source, Pages(true, 1, target, maxPages, source), r);
    assert listing[..|listing|] == listing;
  }

  lemma ReachedTarget(numbered: bool, pageSize: nat, target: int, maxPages: nat, source: nat -> Answer,
                      pages: seq<Page>, r: PaginatedFetch)
    requires Accounts(numbered, pageSize, target, maxPages, source, pages, r)
    ensures r.stopReason == TargetReached <==> |r.rawJobs| >= target
  {
    hide Follows, GoesOn, Exhausted, Position;
  }

  /** The same from a listing read by offsets; a source that does not stall hands on all
      that was asked for. */
  lemma OffsetJobsHandedOn(listing: seq<Item>, pageSize: nat, target: int, limit: nat, maxPages: nat,
                           source: nat -> Answer, r: PaginatedFetch)
    requires DistinctIds(listing) && pageSize >= 1 && target <= limit && OffsetSource(listing, source)
    requires Accounts(false, pageSize, target, maxPages, source, Pages(false, pageSize, target, maxPages, source), r)
    ensures HandedOn(r, limit) <= listing && |HandedOn(r, limit)| <= limit
    ensures r.stopReason == TargetReached
            || (r.stopReason == SourceExhausted && forall k: nat :: !Stalls(source, pageSize, |listing|, k)) ==>
              |HandedOn(r, limit)| >= target || HandedOn(r, limit) == listing
  {
    hide Pages, DistinctIds, OffsetSource, Stalls, EndAt, ReachedBy;
    OffsetFetchIsFaithful(listing, pageSize, target, maxPages, source, r);
    CompleteUnlessStalled(listing, pageSize, source);
    hide Accounts;
    ReachedTarget(false, pageSize, target, maxPages, source, Pages(false, pageSize, target, maxPages, source), r);
    assert listing[..|listing|] == listing;
  }
}
