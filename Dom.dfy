/**
 The part of the page's document that the scroll engine reads and writes:
 every element is an identifier, and each element carries a set of class
 names (its `classList`). The pure functions below are the three `classList`
 operations the page script uses (`add`, `remove`, `toggle(name, force)`);
 the class `Document` holds the live class sets and the progress bar's
 `style.width`, and is shared by every component.
 */
module Dom {

  type Element = nat
  type ClassName = string
  type ClassMap = map<Element, set<ClassName>>

  datatype Option<T> = None | Some(value: T)

  // Class names written or read by the page script.
  const VISIBLE: ClassName := "visible"
  const STAGGER: ClassName := "stagger"
  const HIDDEN: ClassName := "hidden"
  const SCROLLED: ClassName := "scrolled"
  const ACTIVE: ClassName := "active"
  const IN_VIEW: ClassName := "in-view"

  /** Does element `e` carry class `c`? An element absent from the map has no classes. */
  predicate Has(m: ClassMap, e: Element, c: ClassName) {
    e in m && c in m[e]
  }

  function ClassesOf(m: ClassMap, e: Element): set<ClassName> {
    if e in m then m[e] else {}
  }

  /** `e.classList.add(c)` */
  function AddClass(m: ClassMap, e: Element, c: ClassName): (r: ClassMap)
    ensures Has(r, e, c)
    ensures forall x, d :: Has(r, x, d) <==> Has(m, x, d) || (x == e && d == c)
  {
    m[e := ClassesOf(m, e) + {c}]
  }

  /** `e.classList.remove(c)` */
  function RemoveClass(m: ClassMap, e: Element, c: ClassName): (r: ClassMap)
    ensures !Has(r, e, c)
    ensures forall x, d :: Has(r, x, d) <==> Has(m, x, d) && !(x == e && d == c)
  {
    m[e := ClassesOf(m, e) - {c}]
  }

  /** `e.classList.toggle(c, force)`: afterwards `e` has `c` exactly when `force` holds. */
  function ToggleClass(m: ClassMap, e: Element, c: ClassName, force: bool): (r: ClassMap)
    ensures Has(r, e, c) == force
    ensures forall x, d :: (x != e || d != c) ==> (Has(r, x, d) <==> Has(m, x, d))
  {
    if force then AddClass(m, e, c) else RemoveClass(m, e, c)
  }

  /** The live document: class sets and the inline `style.width` (a percentage) of elements. */
  class Document {
    var classes: ClassMap
    var widths: map<Element, real>

    constructor (initial: ClassMap)
      ensures classes == initial && widths == map[]
    {
      classes := initial;
      widths := map[];
    }

    method Add(e: Element, c: ClassName)
      modifies this`classes
      ensures classes == AddClass(old(classes), e, c)
    {
      classes := AddClass(classes, e, c);
    }

    method Remove(e: Element, c: ClassName)
      modifies this`classes
      ensures classes == RemoveClass(old(classes), e, c)
    {
      classes := RemoveClass(classes, e, c);
    }

    method Toggle(e: Element, c: ClassName, force: bool)
      modifies this`classes
      ensures classes == ToggleClass(old(classes), e, c, force)
    {
      classes := ToggleClass(classes, e, c, force);
    }

    method SetWidth(e: Element, pct: real)
      modifies this`widths
      ensures widths == old(widths)[e := pct]
    {
      widths := widths[e := pct];
    }
  }
}
