/** Clients that exercise the pager and the theme button through their
    contracts only. */
module Scenarios {
  import opened Wrappers
  import opened Paging
  import opened Controls
  import opened Dom
  import opened Reveal
  import opened Pagination
  import opened Theme

  /** Seven cards make three pages; page 3 holds card 6 alone; clicking "3"
      then "Previous" lands on page 2. */
  method SevenCards() {
    var document := new Document(map[]);
    var observer := new Observer();
    var pager := new Pager(document, observer, 7, true, true);
    assert pager.totalPages == 3;
    assert pager.controls[1].active && !pager.controls[2].active;
    assert document.DisplayOf(ProjectCard(2)) == Flex && document.DisplayOf(ProjectCard(3)) == NoDisplay;
    pager.ClickPage(3);
    assert document.DisplayOf(ProjectCard(6)) == Flex && document.DisplayOf(ProjectCard(5)) == NoDisplay;
    assert pager.controls[4].disabled && pager.scrollRequested;
    var containerClasses := document.ClassesOf(PaginationContainer);
    var observedBefore := observer.observed;
    pager.ClickPrevious();
    assert pager.currentPage == 2;
    assert document.ClassesOf(PaginationContainer) == containerClasses;
    assert observedBefore <= observer.observed;
    assert document.DisplayOf(ProjectCard(3)) == Flex && document.DisplayOf(ProjectCard(6)) == NoDisplay;
    pager.ClickNext();
    pager.ClickNext();
    assert pager.currentPage == 3;
  }

  /** With twelve pages the tenth page button reads "10" and is labelled
      "Page 10". */
  method TwelvePages() {
    var strip := Strip(1, 12);
    var tenth := strip[10];
    assert tenth.text == DecimalString(10) && tenth.ariaLabel == "Page " + DecimalString(10);
    DecimalStringUnique(10, "10");
    assert tenth.text == "10" && tenth.ariaLabel == "Page 10";
  }

  /** Two cards make one page, so the container stays empty. */
  method TwoCards() {
    var document := new Document(map[PaginationContainer := {"hidden"}]);
    var observer := new Observer();
    var pager := new Pager(document, observer, 2, true, true);
    assert pager.totalPages == 1 && pager.controls == [];
    assert PaginationContainer !in observer.observed;
    pager.ClickNext();
    assert pager.currentPage == 1;
  }

  /** No saved theme and a dark system: the page starts dark, and one click
      makes it light and saves 'light'. */
  method DarkSystemThenToggle() {
    var toggle := new ThemeToggle(None, true);
    assert toggle.dataTheme == Some("dark") && toggle.icon == Sun;
    toggle.Toggle();
    assert toggle.dataTheme == Some("light") && toggle.stored == Some("light") && toggle.icon == Moon;
  }

  /** Showing the current page twice gives the same displayed cards and the
      same controls; a reveal delivery in between changes neither. */
  method ShowCurrentPageTwice(entries: seq<Entry>) {
    var document := new Document(map[]);
    var observer := new Observer();
    var pager := new Pager(document, observer, 5, true, false);
    pager.ClickPage(2);
    var before := pager.controls;
    observer.OnIntersect(document, entries);
    assert pager.Shows(2);
    pager.ShowPage(pager.currentPage);
    assert pager.Shows(2) && pager.controls == before && !pager.scrollRequested;
  }
}
