/** The scroll-reveal observer: an element it observes gets the `show` class
    the first time it is reported as intersecting the viewport, and is then
    no longer observed. Which elements intersect is decided by the browser
    and arrives here as a list of entries. */
module Reveal {
  import opened Dom

  /** One IntersectionObserverEntry: its target and whether it intersects. */
  datatype Entry = Entry(target: Element, isIntersecting: bool)

  /** The targets of the intersecting entries of one delivery. */
  function IntersectingTargets(entries: seq<Entry>): (s: set<Element>)
    ensures forall e :: e in s <==> exists k :: 0 <= k < |entries| && entries[k] == Entry(e, true)
  {
    set k | 0 <= k < |entries| && entries[k].isIntersecting :: entries[k].target
  }

  class Observer {
    /** The elements currently observed. */
    var observed: set<Element>

    constructor ()
      ensures observed == {}
    {
      observed := {};
    }

    /** observer.observe(e); observing an element twice has no further effect. */
    method Observe(e: Element)
      modifies this
      ensures observed == old(observed) + {e}
    {
      observed := observed + {e};
    }

    /** observer.unobserve(e) */
    method Unobserve(e: Element)
      modifies this
      ensures observed == old(observed) - {e}
    {
      observed := observed - {e};
    }

    /** The observer callback on one delivery of entries: each intersecting
        target gets `show` and stops being observed; a target reported only as
        not intersecting is left as it was. */
    method OnIntersect(document: Document, entries: seq<Entry>)
      modifies this, document`classes
      ensures observed == old(observed) - IntersectingTargets(entries)
      ensures forall e :: document.ClassesOf(e) ==
                if e in IntersectingTargets(entries) then old(document.ClassesOf(e)) + {"show"}
                else old(document.ClassesOf(e))
    {
      for k := 0 to |entries|
        invariant observed == old(observed) - IntersectingTargets(entries[..k])
        invariant forall e :: document.ClassesOf(e) ==
                    if e in IntersectingTargets(entries[..k]) then old(document.ClassesOf(e)) + {"show"}
                    else old(document.ClassesOf(e))
      {
        var entry := entries[k];
        assert entries[..k + 1] == entries[..k] + [entry];
        if entry.isIntersecting {
          document.AddClass(entry.target, "show");
          Unobserve(entry.target);
        }
      }
      assert entries[..|entries|] == entries;
    }

    /** observeElements(): observe every element that carries `hidden`. */
    method ObserveHidden(document: Document)
      modifies this
      ensures observed == old(observed) + document.WithClass("hidden")
    {
      var pending := document.WithClass("hidden");
      while pending != {}
        invariant pending <= document.WithClass("hidden")
        invariant observed == old(observed) + (document.WithClass("hidden") - pending)
        decreases pending
      {
        var e :| e in pending;
        Observe(e);
        pending := pending - {e};
      }
    }
  }
}
