/**
 The navigation tracker (main.js:107-123): the callback of the section
 IntersectionObserver. An intersecting entry for section `id` toggles
 `active` on every navigation link, on exactly when the link's `href` is
 `'#' + id`; every entry, intersecting or not, sets `in-view` on its section
 to its `isIntersecting`.
 */
module NavTracker {
  import opened Dom

  /** A `.main-nav a` link and its `getAttribute('href')` (None for a missing attribute). */
  datatype Link = Link(el: Element, href: Option<string>)

  /** An entry for a `main section[id]`: the section, its `id` and `isIntersecting`. */
  datatype NavEntry = NavEntry(section: Element, id: string, isIntersecting: bool)

  /** `a.getAttribute('href') === '#' + id` */
  predicate LinksTo(l: Link, id: string) {
    l.href == Some("#" + id)
  }

  /** `querySelectorAll` yields each link element once. */
  predicate DistinctLinks(links: seq<Link>) {
    forall i, j :: 0 <= i < j < |links| ==> links[i].el != links[j].el
  }

  predicate IsLinkElement(links: seq<Link>, x: Element) {
    exists i :: 0 <= i < |links| && links[i].el == x
  }

  /** `navLinks.forEach(a => a.classList.toggle('active', ...))`, links in document order. */
  function MarkActive(m: ClassMap, links: seq<Link>, id: string): ClassMap {
    if links == [] then m
    else
      var l := links[|links| - 1];
      ToggleClass(MarkActive(m, links[..|links| - 1], id), l.el, ACTIVE, LinksTo(l, id))
  }

  /** The callback's work for one entry (main.js:113-119). */
  function NavStep(m: ClassMap, links: seq<Link>, e: NavEntry): ClassMap {
    var m' := if e.isIntersecting then MarkActive(m, links, e.id) else m;
    ToggleClass(m', e.section, IN_VIEW, e.isIntersecting)
  }

  /** The callback on a batch, entries in order (main.js:111-121). */
  function NavBatch(m: ClassMap, links: seq<Link>, entries: seq<NavEntry>): ClassMap {
    if entries == [] then m
    else NavStep(NavBatch(m, links, entries[..|entries| - 1]), links, entries[|entries| - 1])
  }

  /**
   After marking for `id`, a link is `active` exactly when its `href` is
   `'#' + id`, and no class other than the links' `active` has changed.
   */
  lemma {:induction false} MarkActiveExact(m: ClassMap, links: seq<Link>, id: string)
    requires DistinctLinks(links)
    ensures forall i :: 0 <= i < |links| ==> (Has(MarkActive(m, links, id), links[i].el, ACTIVE) <==> LinksTo(links[i], id))
    ensures forall x, d :: d != ACTIVE || !IsLinkElement(links, x) ==>
      (Has(MarkActive(m, links, id), x, d) <==> Has(m, x, d))
  {
    if links != [] {
      var init := links[..|links| - 1];
      var l := links[|links| - 1];
      assert DistinctLinks(init) by {
        forall i, j | 0 <= i < j < |init| ensures init[i].el != init[j].el {
          assert init[i] == links[i] && init[j] == links[j];
        }
      }
      MarkActiveExact(m, init, id);
      var before := MarkActive(m, init, id);
      var r := MarkActive(m, links, id);
      assert r == ToggleClass(before, l.el, ACTIVE, LinksTo(l, id));
      forall i | 0 <= i < |links| ensures Has(r, links[i].el, ACTIVE) <==> LinksTo(links[i], id) {
        if i < |init| {
          assert init[i] == links[i];
        }
      }
      forall x, d | d != ACTIVE || !IsLinkElement(links, x) ensures Has(r, x, d) <==> Has(m, x, d) {
        LinkOfPrefix(links, x);
      }
    }
  }

  lemma LinkOfPrefix(links: seq<Link>, x: Element)
    requires links != []
    ensures IsLinkElement(links[..|links| - 1], x) ==> IsLinkElement(links, x)
  {
    if IsLinkElement(links[..|links| - 1], x) {
      var i :| 0 <= i < |links| - 1 && links[..|links| - 1][i].el == x;
      assert links[i].el == x;
    }
  }

  /** With distinct `href`s, marking leaves at most one link `active`. */
  lemma AtMostOneActive(m: ClassMap, links: seq<Link>, id: string)
    requires DistinctLinks(links)
    requires forall i, j :: 0 <= i < j < |links| ==> links[i].href != links[j].href
    ensures forall i, j ::
      (0 <= i < |links| && 0 <= j < |links| &&
       Has(MarkActive(m, links, id), links[i].el, ACTIVE) && Has(MarkActive(m, links, id), links[j].el, ACTIVE))
      ==> i == j
  {
    MarkActiveExact(m, links, id);
  }

  /**
   Within a batch, the last intersecting entry decides which links are
   `active`: later non-intersecting entries only touch `in-view`.
   */
  lemma {:induction false} LastIntersectingWins(m: ClassMap, links: seq<Link>, entries: seq<NavEntry>, k: nat)
    requires DistinctLinks(links)
    requires k < |entries| && entries[k].isIntersecting
    requires forall j :: k < j < |entries| ==> !entries[j].isIntersecting
    ensures forall i :: 0 <= i < |links| ==>
      (Has(NavBatch(m, links, entries), links[i].el, ACTIVE) <==> LinksTo(links[i], entries[k].id))
  {
    var init := entries[..|entries| - 1];
    var e := entries[|entries| - 1];
    var before := NavBatch(m, links, init);
    if k == |entries| - 1 {
      MarkActiveExact(before, links, e.id);
    } else {
      forall j | k < j < |init| ensures !init[j].isIntersecting {
        assert init[j] == entries[j];
      }
      LastIntersectingWins(m, links, init, k);
      assert init[k] == entries[k];
    }
  }

  /**
   A section's `in-view` is the `isIntersecting` of the last entry for it in
   the batch.
   */
  lemma {:induction false} InViewFollowsEntry(m: ClassMap, links: seq<Link>, entries: seq<NavEntry>, k: nat)
    requires k < |entries|
    requires forall j :: k < j < |entries| ==> entries[j].section != entries[k].section
    ensures Has(NavBatch(m, links, entries), entries[k].section, IN_VIEW) == entries[k].isIntersecting
  {
    var init := entries[..|entries| - 1];
    var e := entries[|entries| - 1];
    var before := NavBatch(m, links, init);
    if k < |entries| - 1 {
      forall j | k < j < |init| ensures init[j].section != init[k].section {
        assert init[j] == entries[j] && init[k] == entries[k];
      }
      InViewFollowsEntry(m, links, init, k);
      assert init[k] == entries[k];
      var m' := if e.isIntersecting then MarkActive(before, links, e.id) else before;
      if e.isIntersecting {
        MarkActiveFrame(before, links, e.id);
      }
      assert Has(m', entries[k].section, IN_VIEW) == Has(before, entries[k].section, IN_VIEW);
    }
  }

  /** Marking links touches only `active`; in particular `in-view` is left alone (no distinctness needed). */
  lemma {:induction false} MarkActiveFrame(m: ClassMap, links: seq<Link>, id: string)
    ensures forall x, d :: d != ACTIVE ==> (Has(MarkActive(m, links, id), x, d) <==> Has(m, x, d))
  {
    if links != [] {
      MarkActiveFrame(m, links[..|links| - 1], id);
    }
  }

  /**
   A batch changes only the links' `active` and the sections' `in-view`; a
   batch with no intersecting entry leaves every `active` as it was.
   */
  lemma {:induction false} NavBatchFrame(m: ClassMap, links: seq<Link>, entries: seq<NavEntry>)
    ensures forall x, d :: d != ACTIVE && d != IN_VIEW ==>
      (Has(NavBatch(m, links, entries), x, d) <==> Has(m, x, d))
    ensures (forall j :: 0 <= j < |entries| ==> !entries[j].isIntersecting) ==>
      forall x :: Has(NavBatch(m, links, entries), x, ACTIVE) <==> Has(m, x, ACTIVE)
  {
    if entries != [] {
      var init := entries[..|entries| - 1];
      var e := entries[|entries| - 1];
      NavBatchFrame(m, links, init);
      var before := NavBatch(m, links, init);
      MarkActiveFrame(before, links, e.id);
      if forall j :: 0 <= j < |entries| ==> !entries[j].isIntersecting {
        forall j | 0 <= j < |init| ensures !init[j].isIntersecting {
          assert init[j] == entries[j];
        }
        assert !e.isIntersecting;
      }
    }
  }

  /** The navigation observer with the page's links. */
  class Tracker {
    const doc: Document
    const links: seq<Link>

    constructor (doc: Document, links: seq<Link>)
      ensures this.doc == doc && this.links == links
    {
      this.doc := doc;
      this.links := links;
    }

    /** The observer callback (main.js:111-121). */
    method OnEntries(entries: seq<NavEntry>)
      modifies doc`classes
      ensures doc.classes == NavBatch(old(doc.classes), links, entries)
    {
      for n := 0 to |entries|
        invariant doc.classes == NavBatch(old(doc.classes), links, entries[..n])
      {
        assert entries[..n + 1][..n] == entries[..n];
        var entry := entries[n];
        if entry.isIntersecting {
          ghost var start := doc.classes;
          for i := 0 to |links|
            invariant doc.classes == MarkActive(start, links[..i], entry.id)
          {
            assert links[..i + 1][..i] == links[..i];
            doc.Toggle(links[i].el, ACTIVE, links[i].href == Some("#" + entry.id));
          }
          assert links[..|links|] == links;
        }
        doc.Toggle(entry.section, IN_VIEW, entry.isIntersecting);
      }
      assert entries[..|entries|] == entries;
    }
  }
}
