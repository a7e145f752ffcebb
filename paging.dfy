/** Page arithmetic of the project grid: a fixed list of cards is cut into
    pages of three, and page `p` shows the half-open index window
    [(p - 1) * 3, p * 3). */
module Paging {

  /** Cards shown per page. */
  const ItemsPerPage: nat := 3

  /** Math.ceil(n / itemsPerPage): the number of pages needed for `n` cards. */
  function TotalPages(n: nat): (t: nat)
    ensures ItemsPerPage * (t - 1) < n <= ItemsPerPage * t
    ensures t == 0 <==> n == 0
  {
    (n + ItemsPerPage - 1) / ItemsPerPage
  }

  /** First index of the window of `page` (inclusive). */
  function WindowStart(page: int): int {
    (page - 1) * ItemsPerPage
  }

  /** Last index of the window of `page` (exclusive). */
  function WindowEnd(page: int): int {
    WindowStart(page) + ItemsPerPage
  }

  /** Whether card `index` is displayed when `page` is shown. */
  predicate InWindow(page: int, index: int) {
    WindowStart(page) <= index < WindowEnd(page)
  }

  function Clamp(x: int, n: nat): (c: nat)
    ensures c <= n
  {
    if x < 0 then 0 else if x > n then n else x
  }

  /** The indices, in increasing order, of the cards that `page` shows out of `n`. */
  function CardsOnPage(n: nat, page: int): (cards: seq<nat>)
    ensures |cards| <= ItemsPerPage
    ensures forall k :: 0 < k < |cards| ==> cards[k - 1] < cards[k]
    ensures forall i: nat :: i in cards <==> i < n && InWindow(page, i)
  {
    var lo := Clamp(WindowStart(page), n);
    var hi := Clamp(WindowEnd(page), n);
    var cards := seq(if lo <= hi then hi - lo else 0, k requires 0 <= k => lo + k);
    assert forall i: nat | i < n && InWindow(page, i) :: cards[i - lo] == i;
    cards
  }

  /** The page whose window holds card `index`. */
  function PageOf(index: nat): (page: nat)
    ensures 1 <= page && InWindow(page, index)
    ensures forall p :: InWindow(p, index) ==> p == page
  {
    index / ItemsPerPage + 1
  }

  /** The cards 0 .. n-1 in order. */
  function Range(n: nat): (r: seq<nat>)
    ensures |r| == n
  {
    seq(n, i requires 0 <= i => i)
  }

  /** The windows of pages 1 .. p laid end to end. */
  function PagesUpTo(n: nat, p: nat): seq<nat> {
    if p == 0 then [] else PagesUpTo(n, p - 1) + CardsOnPage(n, p)
  }

  function Min(a: int, b: int): int {
    if a < b then a else b
  }

  /** Pages 1 .. p together show exactly the first min(n, 3p) cards, in order. */
  lemma {:induction false} PagesUpToIsPrefix(n: nat, p: nat)
    ensures PagesUpTo(n, p) == Range(Min(n, ItemsPerPage * p))
  {
    if p > 0 {
      PagesUpToIsPrefix(n, p - 1);
      var lo := Min(n, ItemsPerPage * (p - 1));
      var hi := Min(n, ItemsPerPage * p);
      var page := CardsOnPage(n, p);
      assert |page| == hi - lo;
      forall k | 0 <= k < |page| ensures page[k] == lo + k {
      }
      assert Range(lo) + page == Range(hi);
    }
  }

  /** The windows of pages 1 .. TotalPages(n) partition the cards: laid end to
      end they list every card exactly once, in order. */
  lemma WindowsPartitionCards(n: nat)
    ensures PagesUpTo(n, TotalPages(n)) == Range(n)
  {
    PagesUpToIsPrefix(n, TotalPages(n));
  }

  /** Every card lies on exactly one page, and that page exists. */
  lemma CardOnExactlyOnePage(n: nat, index: nat)
    requires index < n
    ensures 1 <= PageOf(index) <= TotalPages(n)
    ensures index in CardsOnPage(n, PageOf(index))
    ensures forall p :: index in CardsOnPage(n, p) ==> p == PageOf(index)
  {
  }

  /** Every page but the last is full; the last holds between one and three
      cards; pages outside 1 .. TotalPages(n) are empty. */
  lemma PageSizes(n: nat, page: int)
    ensures 1 <= page < TotalPages(n) ==> |CardsOnPage(n, page)| == ItemsPerPage
    ensures page == TotalPages(n) >= 1 ==>
              |CardsOnPage(n, page)| == n - ItemsPerPage * (page - 1) && 1 <= |CardsOnPage(n, page)|
    ensures page < 1 || page > TotalPages(n) ==> CardsOnPage(n, page) == []
  {
  }
}
