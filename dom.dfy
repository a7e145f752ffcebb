/** The part of the page's document that the script reads and writes: the
    class list and the inline `display` style of each element. */
module Dom {

  /** The elements the script touches. Cards are named by their position in
      the grid's fixed card list. */
  datatype Element = ProjectCard(index: nat) | PaginationContainer | OtherElement(id: nat)

  /** The inline `style.display` of an element: unset (the stylesheet
      decides), 'flex' or 'none'. */
  datatype Display = Unstyled | Flex | NoDisplay

  class Document {
    /** Class lists; an element without an entry has no classes. */
    var classes: map<Element, set<string>>
    /** Inline display styles; an element without an entry is unstyled. */
    var display: map<Element, Display>

    constructor (classes: map<Element, set<string>>)
      ensures this.classes == classes && display == map[]
    {
      this.classes := classes;
      display := map[];
    }

    function ClassesOf(e: Element): set<string>
      reads this`classes
    {
      if e in classes then classes[e] else {}
    }

    function DisplayOf(e: Element): Display
      reads this`display
    {
      if e in display then display[e] else Unstyled
    }

    /** The elements whose class list holds `c` (document.querySelectorAll('.c')). */
    function WithClass(c: string): (s: set<Element>)
      reads this`classes
      ensures forall e :: e in s <==> c in ClassesOf(e)
    {
      set e | e in classes && c in classes[e]
    }

    /** element.classList.add(c) */
    method AddClass(e: Element, c: string)
      modifies this`classes
      ensures forall x :: ClassesOf(x) == if x == e then old(ClassesOf(x)) + {c} else old(ClassesOf(x))
    {
      classes := classes[e := ClassesOf(e) + {c}];
    }

    /** element.classList.remove(c) */
    method RemoveClass(e: Element, c: string)
      modifies this`classes
      ensures forall x :: ClassesOf(x) == if x == e then old(ClassesOf(x)) - {c} else old(ClassesOf(x))
    {
      classes := classes[e := ClassesOf(e) - {c}];
    }

    /** element.style.display = d */
    method SetDisplay(e: Element, d: Display)
      modifies this`display
      ensures forall x :: DisplayOf(x) == if x == e then d else old(DisplayOf(x))
    {
      display := display[e := d];
    }
  }
}
