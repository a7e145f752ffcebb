# Project-grid pagination, scroll reveal and theme toggle

This project models the behaviour of `js/main.js`, the one script of a static
portfolio site, and proves properties of the model in Dafny. The model covers four parts.

- **Paging** (`paging.dfy`) holds the page arithmetic. Three cards make a page, and the
  number of pages is ceil(N / 3). Page `p` shows the half-open index window
  `[(p-1)*3, p*3)`.
- **Pagination** (`pagination.dfy`) is the pager. The class `Pager` holds `currentPage`,
  `totalPages`, the rendered control buttons and a "scroll requested" flag. It works
  on a `Document` (`dom.dfy`: each element's class list and inline `display`) and on
  the scroll-reveal `Observer` (`reveal.dfy`: the set of observed elements).
  - `ShowPage` displays the window's cards and hides the rest. It re-arms each shown
    card (removes `show`, adds `hidden`, observes it). It asks for a scroll to the
    projects section when the page is not 1 and that section exists. Then it rebuilds
    the controls.
  - `UpdatePaginationControls` empties the container and refills it from
    `currentPage`. The expected contents are given by `Controls.Strip`
    (`controls.dfy`).
  - `ClickPrevious`, `ClickNext` and `ClickPage` are the three button handlers.
  - The invariant `Valid` keeps `currentPage` in 1..totalPages (exactly 1 when there
    are no cards). It also keeps exactly the current page's cards displayed and the
    controls matching the current page.
- **Reveal** (`reveal.dfy`) is the observer callback. Each intersecting target gets
  `show` and stops being observed. Non-intersecting entries change nothing.
  `ObserveHidden` observes every element that carries `hidden`.
- **Theme** (`theme.dfy`) is the light/dark button. The saved value and the system
  preference are inputs. The precedence rule follows JavaScript falsiness: a saved
  empty string counts as "nothing saved".

`scenarios.dfy` holds clients that use only the contracts:
- seven cards make three pages, and clicking "3" then "Previous" lands on page 2;
- with twelve pages the tenth button reads "10" and is labelled "Page 10";
- two cards leave the container empty;
- `ShowPage(currentPage)` run twice gives the same display and controls;
- with no saved theme and a dark system, the page starts dark, and one toggle makes it light and saves "light".

Three behaviours of the code are kept as written:
- `showPage` demands nothing of its argument. With zero cards it runs for page 1 while
  there are 0 pages.
- Cards moved off the page are hidden but stay observed.
- The pagination container is observed on every render that draws buttons, and only
  while it still carries `hidden`. That class is never removed, so this happens on
  every such render.

## Model

| member | source | states |
|---|---|---|
| Paging.TotalPages | js/main.js:34-36 | the page count t satisfies 3(t-1) < N <= 3t, which is ceil(N/3); it is 0 exactly when there are no cards |
| Paging.CardsOnPage | js/main.js:40-44 | the cards a page shows are, in increasing order, exactly the indices below N inside `[(p-1)*3, p*3)`; there are never more than 3 |
| Paging.PageOf | js/main.js:40-44 | every card index lies in the window of page index/3+1 and of no other page |
| Paging.PagesUpToIsPrefix | js/main.js:40-44 | the windows of pages 1..p laid end to end are exactly the first min(N, 3p) cards in order |
| Paging.WindowsPartitionCards | js/main.js:36-44 | the windows of pages 1..totalPages list every card exactly once, in order: no overlap, no omission |
| Paging.CardOnExactlyOnePage | js/main.js:36-44 | each card is shown by exactly one page, and that page lies in 1..totalPages |
| Paging.PageSizes | js/main.js:34-44 | every page before the last holds 3 cards; the last holds N-3(t-1), between 1 and 3; pages outside 1..totalPages show nothing |
| Dom.Document.WithClass | js/main.js:20 | the elements selected by a class are exactly those whose class list holds it |
| Dom.Document.AddClass | js/main.js:53 | the element's class list gains the class; no other class list changes |
| Dom.Document.RemoveClass | js/main.js:52 | the element's class list loses the class; no other class list changes |
| Dom.Document.SetDisplay | js/main.js:46-57 | the element's display becomes the given style; no other element's changes |
| Reveal.IntersectingTargets | js/main.js:10-11 | an element is among the targets iff some entry of the delivery names it as intersecting |
| Reveal.Observer.constructor | js/main.js:9-16 | a new observer observes nothing |
| Reveal.Observer.Observe | js/main.js:54 | the element joins the observed set; observing twice changes nothing more |
| Reveal.Observer.Unobserve | js/main.js:13 | the element leaves the observed set |
| Reveal.Observer.OnIntersect | js/main.js:9-16 | exactly the intersecting targets gain `show` and stop being observed; every other element keeps its classes and its observed status |
| Reveal.Observer.ObserveHidden | js/main.js:19-25 | every element carrying `hidden` becomes observed, and nothing else does |
| Controls.DecimalString | js/main.js:97-99 | a page number's text is a non-empty string of decimal digits that denotes the number, with no leading zero |
| Controls.DecimalStringUnique | js/main.js:97-99 | that description fixes the text: any non-empty digit string without a leading zero that denotes n is the text of n |
| Controls.DecimalStringInjective | js/main.js:97-99 | different page numbers get different texts |
| Controls.Strip | js/main.js:78-123 | at most one page gives no buttons; otherwise totalPages+2 buttons: Previous, 1..totalPages, Next; Previous reads "Previous" and is labelled "Previous Page", Next reads "Next" and is labelled "Next Page", button i reads the decimal text of i and is labelled "Page " followed by it; Previous is disabled iff the current page is 1, Next iff it is the last; page buttons are never disabled; a button is active iff it is the current page's number, and carries aria-current iff it is active |
| Controls.ExactlyOneActive | js/main.js:100-103 | on a rendered strip with the current page in range, exactly one button is active and aria-current: the one numbered currentPage |
| Controls.AriaLabelsDistinct | js/main.js:84-115 | all the buttons of a strip carry different aria-labels |
| Pagination.ShownCards | js/main.js:43-54 | the card elements a page re-arms are exactly the cards below N in its window |
| Pagination.Pager.constructor | js/main.js:32-36 | setup: totalPages is ceil(N/3) and currentPage is 1; the model also runs `showPage(1)` (line 132): each card is displayed iff it is on page 1 and no other element's display changes, page 1's cards lose `show` and gain `hidden` and no other class list changes, the observed set gains exactly page 1's cards (and the container when it has buttons and still carries `hidden`), no scroll is requested, and the invariant holds |
| Pagination.Pager.ShowPage | js/main.js:39-70 | each card is displayed iff it is in the page's window and hidden otherwise; every shown card loses `show`, gains `hidden` and is observed, and no other class list changes; a scroll is requested iff the page is not 1 and the projects section exists, even when the page was already current; the controls are rebuilt for currentPage |
| Pagination.Pager.UpdatePaginationControls | js/main.js:73-129 | with no container nothing changes; otherwise the container holds exactly `Strip(currentPage, totalPages)`, rebuilt from scratch, and it is observed when it has buttons and still carries `hidden` |
| Pagination.Pager.ClickPrevious | js/main.js:86-91 | above page 1 it goes back one page and has exactly the effect of showing that page (display, class lists and observed set as for `ShowPage`); a scroll is requested iff the new page is not 1 and the projects section exists; on page 1 nothing at all changes; the invariant is preserved |
| Pagination.Pager.ClickNext | js/main.js:117-122 | below the last page it goes forward one page and has exactly the effect of showing that page; a scroll is requested iff the projects section exists; on the last page nothing changes; the invariant is preserved |
| Pagination.Pager.ClickPage | js/main.js:104-107 | currentPage becomes the button's number unconditionally, even when it is already current, with exactly the effect of showing that page; a scroll is requested iff that page is not 1 and the projects section exists; the invariant is preserved |
| Theme.NextTheme | js/main.js:156-165 | a click switches to light exactly when the attribute is dark, and to dark otherwise, unset included |
| Theme.TwoClicks | js/main.js:155-166 | two clicks restore a light or dark theme; from unset they end on light |
| Theme.SavedThemeWinsOnReload | js/main.js:146-165 | the value a click saves is the theme the next load starts with, whatever the system prefers |
| Theme.ThemeToggle.constructor | js/main.js:146-152 | the page starts dark iff the saved value is 'dark', or nothing (null or empty) is saved and the system prefers dark; the sun icon shows iff it starts dark |
| Theme.ThemeToggle.Toggle | js/main.js:155-166 | the theme flips as NextTheme says, the new value is saved, and the sun icon shows iff the new theme is dark |

## Left out

- Intersection geometry is left out. The 0.1 threshold, the root margin and the viewport are the browser's floating-point computation. Intersection arrives only as a list of `(target, isIntersecting)` entries.
- The timing of observer deliveries is left out. The event loop and asynchronous delivery are not modelled.
- Real DOM construction is abstracted: `createElement`, `innerHTML`, `appendChild`, `addEventListener`, the icon HTML and the `pagination-btn` and `page-number` classes. A button is a record of its kind, text, aria-label, disabled, active and aria-current. The container's children are the pager's `controls` sequence. An icon is `Moon` or `Sun`.
- A disabled button cannot be clicked in a browser. This is not modelled separately: the handlers' own guards already make such a click change nothing.
- Smooth scrolling is left out. Only whether the last `showPage` asked for a scroll is kept.
- `localStorage` and `matchMedia` are inputs (the saved value and the system preference) plus the written `stored` field.
- The theme button exists only when the page has a `.nav-container`. The model covers that case; without the container the script does nothing for the theme.
- Theme.ThemeToggle.constructor: assumes the root element has no `data-theme` attribute before the script runs. The markup that could set one is not part of this model.
- The pager exists only when the page has a `.projects-grid`; without it the script does nothing for pagination. The DOM lookups for the container and the projects section give fixed answers (`hasContainer`, `hasProjectsSection`), because the document's structure does not change.
- Pagination.Pager.ClickPage: requires `1 <= i <= totalPages`. The source creates page buttons only for those numbers.
- The image modal (`openModal`, `closeModal`), the carousel click wiring and the Escape key are left out. They only set styles and have no logic to verify.
