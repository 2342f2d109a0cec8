/**
 The page arithmetic shared by the three scanning loops of the federator.  A range of blocks is
 fetched in ceil((to - from) / 1000) pages; every page but the last spans 1000 blocks and the
 last one is stretched to end at `to`.
 */
module Paging {

  const RECORDS_PER_PAGE := 1000

  datatype Page = Page(from: int, to: int) {
    predicate Covers(block: int) { from <= block <= to }

    function Size(): int { to - from + 1 }
  }

  // Math.ceil((to - from) / 1000).  Dafny's integer division by a positive number floors.
  function NumberOfPages(from: int, to: int): int {
    (to - from + RECORDS_PER_PAGE - 1) / RECORDS_PER_PAGE
  }

  // The pages numbered `page`..`total`, when the page numbered `page` starts at `from`.
  function PagesFrom(from: int, page: int, total: int, to: int): seq<Page>
    decreases total - page
  {
    if page > total then []
    else
      var end := if page == total then to else from + RECORDS_PER_PAGE - 1;
      [Page(from, end)] + PagesFrom(end + 1, page + 1, total, to)
  }

  function Pages(from: int, to: int): seq<Page> {
    PagesFrom(from, 1, NumberOfPages(from, to), to)
  }

  ghost predicate Contiguous(pages: seq<Page>) {
    forall k {:trigger pages[k]} :: 0 < k < |pages| ==> pages[k].from == pages[k - 1].to + 1
  }

  // What a reader expects of a paging of [from, to], stated without the loop.
  ghost predicate IsPaging(pages: seq<Page>, from: int, to: int) {
    && pages != []
    && pages[0].from == from
    && pages[|pages| - 1].to == to
    && Contiguous(pages)
    && (forall k :: 0 <= k < |pages| - 1 ==> pages[k].Size() == 1_000)
    && 2 <= pages[|pages| - 1].Size() <= 1_001
  }

  lemma {:induction false} PagesFromIsPaging(from: int, page: int, total: int, to: int)
    requires page <= total
    requires (total - page) * RECORDS_PER_PAGE < to - from <= (total - page + 1) * RECORDS_PER_PAGE
    ensures |PagesFrom(from, page, total, to)| == total - page + 1
    ensures IsPaging(PagesFrom(from, page, total, to), from, to)
    decreases total - page
  {
    if page < total {
      PagesFromIsPaging(from + RECORDS_PER_PAGE, page + 1, total, to);
    } else {
      assert PagesFrom(to + 1, page + 1, total, to) == [];
    }
  }

  // Every non-trivial range is paged exactly; every other range has no page at all.
  lemma PagePartition(from: int, to: int)
    ensures from < to ==> IsPaging(Pages(from, to), from, to)
    ensures from >= to ==> Pages(from, to) == []
    ensures from < to ==> |Pages(from, to)| == NumberOfPages(from, to)
  {
    if from < to {
      PagesFromIsPaging(from, 1, NumberOfPages(from, to), to);
    }
  }

  lemma {:induction false} PagesAreOrdered(pages: seq<Page>, from: int, to: int, i: nat, j: nat)
    requires IsPaging(pages, from, to)
    requires i < j < |pages|
    ensures pages[i].to < pages[j].from
    decreases j - i
  {
    assert pages[j].from == pages[j - 1].to + 1;
    if i < j - 1 {
      assert pages[j - 1].Size() == RECORDS_PER_PAGE;
      PagesAreOrdered(pages, from, to, i, j - 1);
    }
  }

  // The page a block falls in, found by walking down from the last page.
  lemma {:induction false} SomePageCovers(pages: seq<Page>, from: int, to: int, block: int, n: nat)
    returns (k: nat)
    requires IsPaging(pages, from, to)
    requires 0 < n <= |pages|
    requires from <= block <= pages[n - 1].to
    ensures k < n && pages[k].Covers(block)
    decreases n
  {
    if block >= pages[n - 1].from {
      k := n - 1;
    } else {
      assert pages[n - 1].from == pages[n - 2].to + 1;
      k := SomePageCovers(pages, from, to, block, n - 1);
    }
  }

  lemma PageInRange(pages: seq<Page>, from: int, to: int, k: nat)
    requires IsPaging(pages, from, to) && k < |pages|
    ensures from <= pages[k].from < pages[k].to <= to
  {
    if 0 < k { PagesAreOrdered(pages, from, to, 0, k); }
    if k < |pages| - 1 {
      assert pages[k].Size() == RECORDS_PER_PAGE;
      PagesAreOrdered(pages, from, to, k, |pages| - 1);
    }
  }

  lemma OnePageCovers(pages: seq<Page>, from: int, to: int, block: int, i: nat, j: nat)
    requires IsPaging(pages, from, to) && i < |pages| && j < |pages|
    requires pages[i].Covers(block) && pages[j].Covers(block)
    ensures i == j
  {
    if i < j {
      PagesAreOrdered(pages, from, to, i, j);
    } else if j < i {
      PagesAreOrdered(pages, from, to, j, i);
    }
  }

  ghost predicate InSomePage(pages: seq<Page>, block: int) {
    exists k :: 0 <= k < |pages| && pages[k].Covers(block)
  }

  ghost predicate InAtMostOnePage(pages: seq<Page>, block: int) {
    forall i, j | 0 <= i < |pages| && 0 <= j < |pages| ::
      pages[i].Covers(block) && pages[j].Covers(block) ==> i == j
  }

  // A block of the range lies in one page and in no other; a block outside lies in none.
  lemma BlockInExactlyOnePage(from: int, to: int, block: int)
    ensures InSomePage(Pages(from, to), block) <==> from < to && from <= block <= to
    ensures InAtMostOnePage(Pages(from, to), block)
  {
    hide Pages;
    PagePartition(from, to);
    var pages := Pages(from, to);
    if from < to {
      if from <= block <= to {
        var k := SomePageCovers(pages, from, to, block, |pages|);
      }
      forall k | 0 <= k < |pages|
        ensures from <= pages[k].from < pages[k].to <= to
      {
        PageInRange(pages, from, to, k);
      }
      forall i, j | 0 <= i < |pages| && 0 <= j < |pages| && pages[i].Covers(block) && pages[j].Covers(block)
        ensures i == j
      {
        OnePageCovers(pages, from, to, block, i, j);
      }
    }
  }
}
