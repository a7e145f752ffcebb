/** The project-grid pager: which page of cards is displayed, the re-arming
    of the shown cards for the reveal animation, the scroll request, and the
    control strip rebuilt on every page change. */
module Pagination {
  import opened Paging
  import opened Controls
  import opened Dom
  import opened Reveal

  /** The card elements that `page` shows among the first `n` cards. */
  function ShownCards(n: nat, page: int): (s: set<Element>)
    ensures forall e :: e in s <==> e.ProjectCard? && e.index < n && InWindow(page, e.index)
  {
    set i: nat | i < n && InWindow(page, i) :: ProjectCard(i)
  }

  class Pager {
    const document: Document
    const observer: Observer
    /** projectCards.length */
    const cardCount: nat
    /** Whether the page has a `.pagination-container`. */
    const hasContainer: bool
    /** Whether the page has an element with id `projects`. */
    const hasProjectsSection: bool
    const totalPages: nat
    var currentPage: int
    /** The buttons inside the pagination container. */
    var controls: seq<Button>
    /** Whether the last showPage asked for the projects section to be scrolled into view. */
    var scrollRequested: bool

    /** `currentPage` stays within 1 .. totalPages (it is 1 when there are no
        cards), exactly the cards of `currentPage` are displayed, and the
        container shows the strip for `currentPage`. */
    ghost predicate Valid()
      reads this, document`display
    {
      && totalPages == TotalPages(cardCount)
      && 1 <= currentPage
      && (totalPages >= 1 ==> currentPage <= totalPages)
      && (totalPages == 0 ==> currentPage == 1)
      && Shows(currentPage)
      && controls == (if hasContainer then Strip(currentPage, totalPages) else [])
    }

    /** Exactly the cards in the window of `page` are displayed. */
    ghost predicate Shows(page: int)
      reads this, document`display
    {
      forall i :: 0 <= i < cardCount ==>
        document.DisplayOf(ProjectCard(i)) == if InWindow(page, i) then Flex else NoDisplay
    }

    predicate IsCard(e: Element) {
      e.ProjectCard? && e.index < cardCount
    }

    /** What showing `page` does, compared with the state before: each card is
        displayed iff it is in the window and hidden otherwise, and no other
        element's display changes; each shown card loses `show` and gains
        `hidden`, and no other class list changes; the observed set gains the
        shown cards, and the container when it has buttons and still carries
        `hidden`; a scroll is requested iff `page` is not 1 and the projects
        section exists. */
    twostate predicate Rendered(page: int)
      reads this, document, observer
    {
      && (forall e :: document.DisplayOf(e) ==
            if IsCard(e) then (if InWindow(page, e.index) then Flex else NoDisplay)
            else old(document.DisplayOf(e)))
      && (forall e :: document.ClassesOf(e) ==
            if IsCard(e) && InWindow(page, e.index) then old(document.ClassesOf(e)) - {"show"} + {"hidden"}
            else old(document.ClassesOf(e)))
      && observer.observed == old(observer.observed) + ShownCards(cardCount, page)
           + (if hasContainer && totalPages > 1 && "hidden" in document.ClassesOf(PaginationContainer)
              then {PaginationContainer} else {})
      && (scrollRequested <==> page != 1 && hasProjectsSection)
    }

    /** Setting up the grid: capture the cards, start at page 1 and show it. */
    constructor (document: Document, observer: Observer, cardCount: nat,
                 hasContainer: bool, hasProjectsSection: bool)
      modifies document, observer
      ensures this.document == document && this.observer == observer && this.cardCount == cardCount
      ensures this.hasContainer == hasContainer && this.hasProjectsSection == hasProjectsSection
      ensures Valid() && currentPage == 1 && totalPages == TotalPages(cardCount)
      ensures !scrollRequested
      ensures forall e :: document.DisplayOf(e) ==
                if IsCard(e) then (if InWindow(1, e.index) then Flex else NoDisplay)
                else old(document.DisplayOf(e))
      ensures forall e :: document.ClassesOf(e) ==
                if IsCard(e) && InWindow(1, e.index) then old(document.ClassesOf(e)) - {"show"} + {"hidden"}
                else old(document.ClassesOf(e))
      ensures observer.observed == old(observer.observed) + ShownCards(cardCount, 1)
                + (if hasContainer && totalPages > 1 && "hidden" in document.ClassesOf(PaginationContainer)
                   then {PaginationContainer} else {})
    {
      this.document := document;
      this.observer := observer;
      this.cardCount := cardCount;
      this.hasContainer := hasContainer;
      this.hasProjectsSection := hasProjectsSection;
      totalPages := TotalPages(cardCount);
      currentPage := 1;
      controls := [];
      scrollRequested := false;
      new;
      ShowPage(1);
    }

    /** showPage(page): display the window of `page` and hide every other
        card, re-arm each displayed card for the reveal animation, ask for a
        scroll when `page` is not 1 and the section exists, then rebuild the
        controls. */
    method ShowPage(page: int)
      modifies this`controls, this`scrollRequested, document, observer
      ensures Shows(page) && Rendered(page)
      ensures controls == if hasContainer then Strip(currentPage, totalPages) else old(controls)
    {
      var start := WindowStart(page);
      var end := start + ItemsPerPage;
      for index := 0 to cardCount
        invariant forall e :: document.DisplayOf(e) ==
                    if e.ProjectCard? && e.index < index then (if InWindow(page, e.index) then Flex else NoDisplay)
                    else old(document.DisplayOf(e))
        invariant forall e :: document.ClassesOf(e) ==
                    if e.ProjectCard? && e.index < index && InWindow(page, e.index)
                    then old(document.ClassesOf(e)) - {"show"} + {"hidden"}
                    else old(document.ClassesOf(e))
        invariant observer.observed == old(observer.observed) + ShownCards(index, page)
        invariant controls == old(controls) && scrollRequested == old(scrollRequested)
      {
        var card := ProjectCard(index);
        if start <= index < end {
          document.SetDisplay(card, Flex);
          document.RemoveClass(card, "show");
          document.AddClass(card, "hidden");
          observer.Observe(card);
        } else {
          document.SetDisplay(card, NoDisplay);
        }
      }
      scrollRequested := page != 1 && hasProjectsSection;
      UpdatePaginationControls();
    }

    /** updatePaginationControls(): with no container nothing happens;
        otherwise the container is emptied and, when there is more than one
        page, refilled with Previous, 1 .. totalPages, Next, and observed if it
        still carries `hidden`. */
    method UpdatePaginationControls()
      modifies this`controls, observer
      ensures controls == if hasContainer then Strip(currentPage, totalPages) else old(controls)
      ensures observer.observed ==
                if hasContainer && totalPages > 1 && "hidden" in document.ClassesOf(PaginationContainer)
                then old(observer.observed) + {PaginationContainer} else old(observer.observed)
    {
      if !hasContainer {
        return;
      }
      controls := [];
      if totalPages <= 1 {
        return;
      }
      controls := controls + [PreviousButton(currentPage)];
      for i := 1 to totalPages + 1
        invariant controls == [PreviousButton(currentPage)] + PageButtons(currentPage, i - 1)
        invariant observer.observed == old(observer.observed)
      {
        controls := controls + [PageButton(i, currentPage)];
      }
      controls := controls + [NextButton(currentPage, totalPages)];
      if "hidden" in document.ClassesOf(PaginationContainer) {
        observer.Observe(PaginationContainer);
      }
    }

    /** The Previous button's handler: go back one page unless on page 1. */
    method ClickPrevious()
      requires Valid()
      modifies this`currentPage, this`controls, this`scrollRequested, document, observer
      ensures Valid()
      ensures old(currentPage) > 1 ==> currentPage == old(currentPage) - 1 && Rendered(currentPage)
      ensures old(currentPage) > 1 ==> forall j :: 0 <= j < cardCount && InWindow(currentPage, j) ==>
                ProjectCard(j) in observer.observed && "hidden" in document.ClassesOf(ProjectCard(j))
                && "show" !in document.ClassesOf(ProjectCard(j))
      ensures old(currentPage) <= 1 ==>
                currentPage == old(currentPage) && controls == old(controls)
                && scrollRequested == old(scrollRequested)
                && unchanged(document) && unchanged(observer)
    {
      if currentPage > 1 {
        currentPage := currentPage - 1;
        ShowPage(currentPage);
      }
    }

    /** The Next button's handler: go forward one page unless on the last. */
    method ClickNext()
      requires Valid()
      modifies this`currentPage, this`controls, this`scrollRequested, document, observer
      ensures Valid()
      ensures old(currentPage) < totalPages ==>
                currentPage == old(currentPage) + 1 && Rendered(currentPage)
      ensures old(currentPage) < totalPages ==> forall j :: 0 <= j < cardCount && InWindow(currentPage, j) ==>
                ProjectCard(j) in observer.observed && "hidden" in document.ClassesOf(ProjectCard(j))
                && "show" !in document.ClassesOf(ProjectCard(j))
      ensures old(currentPage) >= totalPages ==>
                currentPage == old(currentPage) && controls == old(controls)
                && scrollRequested == old(scrollRequested)
                && unchanged(document) && unchanged(observer)
    {
      if currentPage < totalPages {
        currentPage := currentPage + 1;
        ShowPage(currentPage);
      }
    }

    /** The handler of the button numbered `i`: go to page `i`, even when it
        is already the current page (the page is then shown again, and
        scrolled to unless it is page 1). */
    method ClickPage(i: nat)
      requires Valid()
      requires 1 <= i <= totalPages
      modifies this`currentPage, this`controls, this`scrollRequested, document, observer
      ensures Valid()
      ensures currentPage == i && Rendered(i)
      ensures forall j :: 0 <= j < cardCount && InWindow(i, j) ==>
                ProjectCard(j) in observer.observed && "hidden" in document.ClassesOf(ProjectCard(j))
                && "show" !in document.ClassesOf(ProjectCard(j))
    {
      currentPage := i;
      ShowPage(currentPage);
    }
  }
}
