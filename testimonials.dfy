/**
 * The testimonials carousel: a Fisher-Yates shuffle of a copy of the catalog,
 * computed once when the carousel is created, pages of `itemsPerPage` items
 * with guarded next/previous buttons, a per-testimonial expand toggle, and
 * the truncation of long reviews.
 *
 * `Math.random()` is injected as `random: nat -> real`: the loop step at
 * index `i` draws `random(i)`.
 */
module Testimonials {
  import opened Common
  import opened Catalog

  /** `Math.floor(random * (i + 1))`: the partner index of the swap at step `i`. */
  function SwapIndex(random: real, i: nat): (j: nat)
    requires 0.0 <= random < 1.0
    ensures j <= i
  {
    var x := random * (i + 1) as real;
    ScaleBelow(random, (i + 1) as real);
    Floor(x)
  }

  lemma ScaleBelow(a: real, b: real)
    requires 0.0 <= a < 1.0 && b > 0.0
    ensures 0.0 <= a * b < b
  {
    assert b - a * b == (1.0 - a) * b;
  }

  /** `[s[i], s[j]] = [s[j], s[i]]` on a copy. */
  function Swap<T>(s: seq<T>, i: nat, j: nat): (r: seq<T>)
    requires i < |s| && j < |s|
    ensures |r| == |s| && r[i] == s[j] && r[j] == s[i]
    ensures forall k :: 0 <= k < |s| && k != i && k != j ==> r[k] == s[k]
  {
    s[i := s[j]][j := s[i]]
  }

  /** The specification of the loop: the swaps for `i = n-1, ..., 1` applied to `s`, given `n`. */
  function ShuffledDown<T>(s: seq<T>, random: nat -> real, n: nat): seq<T>
    requires n <= |s|
    requires RandomUnit(random)
    decreases n
  {
    if n <= 1 then s
    else ShuffledDown(Swap(s, n - 1, SwapIndex(random(n - 1), n - 1)), random, n - 1)
  }

  /** The order `shuffleArray` produces for the draws `random`. */
  function Shuffled<T>(s: seq<T>, random: nat -> real): seq<T>
    requires RandomUnit(random)
  {
    ShuffledDown(s, random, |s|)
  }

  lemma SwapPermutes<T>(s: seq<T>, i: nat, j: nat)
    requires i < |s| && j < |s|
    ensures multiset(Swap(s, i, j)) == multiset(s)
  {
    var t := s[i := s[j]];
    assert multiset(t) == multiset(s) - multiset{s[i]} + multiset{s[j]};
    assert t[j] == s[j];
    assert multiset(t[j := s[i]]) == multiset(t) - multiset{s[j]} + multiset{s[i]};
  }

  /** Every outcome of the shuffle is a permutation of its input. */
  lemma {:induction false} ShuffledDownPermutes<T>(s: seq<T>, random: nat -> real, n: nat)
    requires n <= |s|
    requires RandomUnit(random)
    ensures |ShuffledDown(s, random, n)| == |s|
    ensures multiset(ShuffledDown(s, random, n)) == multiset(s)
    decreases n
  {
    if n > 1 {
      var j := SwapIndex(random(n - 1), n - 1);
      SwapPermutes(s, n - 1, j);
      ShuffledDownPermutes(Swap(s, n - 1, j), random, n - 1);
    }
  }

  /**
   * `shuffleArray`: copies `items` into a fresh array and, for `i` from the
   * last index down to 1, swaps element `i` with element `floor(random(i) * (i + 1))`.
   */
  method ShuffleArray<T>(items: seq<T>, random: nat -> real) returns (r: seq<T>)
    requires RandomUnit(random)
    ensures r == Shuffled(items, random)
    ensures |r| == |items| && multiset(r) == multiset(items)
  {
    var shuffled := new T[|items|](k requires 0 <= k < |items| => items[k]);
    assert shuffled[..] == items;
    var i := shuffled.Length - 1;
    while i > 0
      invariant -1 <= i < shuffled.Length
      invariant ShuffledDown(shuffled[..], random, i + 1) == Shuffled(items, random)
    {
      var j := SwapIndex(random(i), i);
      ghost var before := shuffled[..];
      assert ShuffledDown(before, random, i + 1) == ShuffledDown(Swap(before, i, j), random, i);
      shuffled[i], shuffled[j] := shuffled[j], shuffled[i];
      assert shuffled[..] == Swap(before, i, j);
      i := i - 1;
    }
    r := shuffled[..];
    ShuffledDownPermutes(items, random, |items|);
  }

  /** `Math.ceil(n / itemsPerPage)`. */
  function TotalPages(n: nat, itemsPerPage: nat): (r: nat)
    requires itemsPerPage > 0
    ensures n <= r * itemsPerPage
    ensures r == 0 || (r - 1) * itemsPerPage < n
  {
    (n + itemsPerPage - 1) / itemsPerPage
  }

  /** `items.slice(page * k, page * k + k)`: JavaScript clips both ends to the length. */
  function PageSlice<T>(items: seq<T>, page: nat, itemsPerPage: nat): (r: seq<T>)
    ensures |r| <= itemsPerPage
    ensures forall t :: 0 <= t < |r| ==> page * itemsPerPage + t < |items| && r[t] == items[page * itemsPerPage + t]
  {
    var start := MinInt(page * itemsPerPage, |items|);
    var end := MinInt(page * itemsPerPage + itemsPerPage, |items|);
    items[start..end]
  }

  /** `currentPage < totalPages - 1`. */
  predicate CanGoNext(page: nat, totalPages: nat)
  {
    page < totalPages - 1
  }

  /** `currentPage > 0`. */
  predicate CanGoPrev(page: nat)
  {
    page > 0
  }

  /** The page after `handleNext`. */
  function NextPage(page: nat, totalPages: nat): (r: nat)
    ensures r == page || r == page + 1
    ensures page < totalPages ==> r < totalPages
  {
    if CanGoNext(page, totalPages) then page + 1 else page
  }

  /** The page after `handlePrev`. */
  function PrevPage(page: nat): (r: nat)
    ensures r == page || r + 1 == page
    ensures r <= page && (r == page <==> page == 0)
  {
    if CanGoPrev(page) then page - 1 else page
  }

  /** The largest page index the buttons can reach. */
  function LastPage(totalPages: nat): nat
  {
    MaxInt(0, totalPages - 1)
  }

  /** Item `idx` is shown on page `idx / k`, at position `idx % k`. */
  lemma PageHoldsItem<T>(items: seq<T>, itemsPerPage: nat, idx: nat)
    requires itemsPerPage > 0 && idx < |items|
    ensures var p := idx / itemsPerPage;
      && p < TotalPages(|items|, itemsPerPage)
      && idx % itemsPerPage < |PageSlice(items, p, itemsPerPage)|
      && PageSlice(items, p, itemsPerPage)[idx % itemsPerPage] == items[idx]
  {
    var k := itemsPerPage;
    var p := idx / k;
    var t := TotalPages(|items|, k);
    DivBounds(idx, k);
    if t <= p {
      MulMonotone(t, p, k);
    }
    var start := p * k;
    assert start <= idx < start + k;
    assert PageSlice(items, p, k) == items[start..MinInt(start + k, |items|)];
  }

  lemma DivBounds(idx: nat, k: nat)
    requires k > 0
    ensures (idx / k) * k <= idx < (idx / k) * k + k
    ensures idx % k == idx - (idx / k) * k
  {
  }

  lemma MulMonotone(a: nat, b: nat, k: nat)
    requires a <= b
    ensures a * k <= b * k
  {
  }

  /** Every page before the last is full; the last holds `n - (totalPages - 1) * k` items, at least one. */
  lemma PageSizes<T>(items: seq<T>, itemsPerPage: nat, page: nat)
    requires itemsPerPage > 0
    requires page < TotalPages(|items|, itemsPerPage)
    ensures var t := TotalPages(|items|, itemsPerPage);
      && (page < t - 1 ==> |PageSlice(items, page, itemsPerPage)| == itemsPerPage)
      && (page == t - 1 ==> |PageSlice(items, page, itemsPerPage)| == |items| - (t - 1) * itemsPerPage)
      && (page == t - 1 ==> 1 <= |PageSlice(items, page, itemsPerPage)| <= itemsPerPage)
  {
    var k := itemsPerPage;
    var t := TotalPages(|items|, k);
    if page < t - 1 {
      MulMonotone(page + 1, t - 1, k);
      assert (page + 1) * k == page * k + k;
    } else {
      assert page * k < |items|;
      assert page * k + k == (page + 1) * k == t * k;
    }
  }

  /** The buttons keep the page index in `[0, max(0, totalPages - 1)]` and move it by one only when enabled. */
  lemma NavigationStaysInRange(page: nat, totalPages: nat)
    requires page <= LastPage(totalPages)
    ensures NextPage(page, totalPages) <= LastPage(totalPages)
    ensures PrevPage(page) <= LastPage(totalPages)
    ensures NextPage(page, totalPages) == if page < totalPages - 1 then page + 1 else page
    ensures PrevPage(page) == if page > 0 then page - 1 else page
  {
  }

  /** `!prev[id]`: a missing entry reads as collapsed. */
  function IsExpanded(expanded: map<string, bool>, id: string): bool
  {
    id in expanded && expanded[id]
  }

  /** `toggleExpand(id)`: flips the entry of `id` and keeps every other entry. */
  function Toggle(expanded: map<string, bool>, id: string): (r: map<string, bool>)
    ensures r.Keys == expanded.Keys + {id}
    ensures IsExpanded(r, id) == !IsExpanded(expanded, id)
    ensures forall other :: other in expanded && other != id ==> r[other] == expanded[other]
  {
    expanded[id := !IsExpanded(expanded, id)]
  }

  /** Toggling the same id twice restores every testimonial's expanded state. */
  lemma ToggleTwiceRestores(expanded: map<string, bool>, id: string, other: string)
    ensures IsExpanded(Toggle(Toggle(expanded, id), id), other) == IsExpanded(expanded, other)
  {
  }

  /** The "Read more" button exists only for a review longer than `maxLength`. */
  predicate HasToggle(review: string, maxLength: nat)
  {
    |review| > maxLength
  }

  /** The text shown for a review. */
  function DisplayText(review: string, expanded: bool, maxLength: nat): (r: string)
    ensures expanded || |review| <= maxLength ==> r == review
    ensures !expanded && |review| > maxLength ==> r == review[..maxLength] + "..."
  {
    if expanded || |review| <= maxLength then review else review[..maxLength] + "..."
  }

  /** Collapsed text is at most `maxLength + 3` long and, ellipsis aside, a prefix of the review. */
  lemma CollapsedTextShape(review: string, maxLength: nat)
    ensures var r := DisplayText(review, false, maxLength);
      && |r| <= maxLength + 3
      && (r == review || (|r| == maxLength + 3 && r[..maxLength] <= review && r[maxLength..] == "..."))
  {
  }

  /** Without a toggle button the expanded flag has no visible effect. */
  lemma ShortReviewUnaffected(review: string, expanded: bool, maxLength: nat)
    requires !HasToggle(review, maxLength)
    ensures DisplayText(review, expanded, maxLength) == review
  {
  }

  /** The shipped configuration: nine testimonials on nine per page make one page, both buttons disabled;
      four per page would make three pages, the last holding one. */
  lemma CatalogPaging()
    ensures TotalPages(|TestimonialsData|, TestimonialsSettings.itemsPerPage) == 1
    ensures !CanGoNext(0, 1) && !CanGoPrev(0)
    ensures TotalPages(|TestimonialsData|, 4) == 3 && |PageSlice(TestimonialsData, 2, 4)| == 1
  {
    TestimonialCount();
    PageSizes(TestimonialsData, 4, 2);
  }

  /** The carousel state: the order fixed at creation, the page, and the expanded flags. */
  class Carousel {
    const testimonials: seq<Testimonial>
    const itemsPerPage: nat
    const maxLength: nat
    var currentPage: nat
    var expanded: map<string, bool>

    ghost predicate Valid()
      reads this
    {
      itemsPerPage > 0 && currentPage <= LastPage(TotalPages(|testimonials|, itemsPerPage))
    }

    /** Mounting the section: the shuffle runs once, on a copy of `all`. */
    constructor (all: seq<Testimonial>, config: TestimonialsConfig, random: nat -> real)
      requires config.itemsPerPage > 0
      requires RandomUnit(random)
      ensures Valid()
      ensures testimonials == Shuffled(all, random)
      ensures multiset(testimonials) == multiset(all)
      ensures itemsPerPage == config.itemsPerPage && maxLength == config.maxLength
      ensures currentPage == 0 && expanded == map[]
    {
      var order := ShuffleArray(all, random);
      testimonials := order;
      itemsPerPage := config.itemsPerPage;
      maxLength := config.maxLength;
      currentPage := 0;
      expanded := map[];
    }

    function Pages(): nat
      reads this
      requires itemsPerPage > 0
    {
      TotalPages(|testimonials|, itemsPerPage)
    }

    /** `currentTestimonials`: the items of the current page, in shuffled order. */
    function CurrentTestimonials(): (r: seq<Testimonial>)
      reads this
      ensures |r| <= itemsPerPage
      ensures forall t :: 0 <= t < |r| ==> currentPage * itemsPerPage + t < |testimonials| && r[t] == testimonials[currentPage * itemsPerPage + t]
    {
      PageSlice(testimonials, currentPage, itemsPerPage)
    }

    method HandleNext()
      requires Valid()
      modifies this`currentPage
      ensures Valid()
      ensures currentPage == NextPage(old(currentPage), Pages())
    {
      NavigationStaysInRange(currentPage, Pages());
      if CanGoNext(currentPage, Pages()) {
        currentPage := currentPage + 1;
      }
    }

    method HandlePrev()
      requires Valid()
      modifies this`currentPage
      ensures Valid()
      ensures currentPage == PrevPage(old(currentPage))
    {
      if CanGoPrev(currentPage) {
        currentPage := currentPage - 1;
      }
    }

    method ToggleExpand(id: string)
      modifies this`expanded
      ensures expanded == Toggle(old(expanded), id)
    {
      expanded := Toggle(expanded, id);
    }

    /** The text shown for `t` under the current expanded flags. */
    function Displayed(t: Testimonial): (r: string)
      reads this
      ensures IsExpanded(expanded, t.id) || |t.review| <= maxLength ==> r == t.review
      ensures !IsExpanded(expanded, t.id) && |t.review| > maxLength ==> r == t.review[..maxLength] + "..."
    {
      DisplayText(t.review, IsExpanded(expanded, t.id), maxLength)
    }
  }
}
