/**
 The reveal engine (main.js:9-28): the callback of the reveal
 IntersectionObserver. Every intersecting entry marks its element `visible`;
 a stagger container (class `stagger` or attribute `data-stagger`) is marked
 at once and each of its children `i` gets a timeout that marks it `visible`
 after `i * 80` milliseconds. Non-intersecting entries are ignored, so
 `visible` is never taken away.

 Timeouts are not run against a clock: a scheduled timeout is a pending
 event, and `RevealEngine.FireTimeout` is the event being delivered.
 */
module Reveal {
  import opened Dom

  /** Milliseconds between the reveals of two consecutive stagger children. */
  const STAGGER_STEP: nat := 80

  /** An IntersectionObserverEntry, reduced to its target and `isIntersecting`. */
  datatype Entry = Entry(target: Element, isIntersecting: bool)

  /** A `setTimeout(() => target.classList.add('visible'), delay)` that has not fired yet. */
  datatype Timeout = Timeout(target: Element, delay: nat)

  /** What one callback does: the new class sets and the timeouts it scheduled, in order. */
  datatype Effect = Effect(classes: ClassMap, scheduled: seq<Timeout>)

  /** `el.classList.contains('stagger') || el.hasAttribute('data-stagger')` */
  predicate IsStaggerContainer(m: ClassMap, dataStagger: set<Element>, el: Element) {
    Has(m, el, STAGGER) || el in dataStagger
  }

  /** `Array.from(el.children)`; an element the map does not know has no children. */
  function ChildrenOf(children: map<Element, seq<Element>>, el: Element): seq<Element> {
    if el in children then children[el] else []
  }

  /** The timeouts `children.forEach((child, i) => setTimeout(..., i * 80))` schedules, in order. */
  function StaggerSchedule(kids: seq<Element>): (r: seq<Timeout>)
    ensures |r| == |kids|
    ensures forall i :: 0 <= i < |kids| ==> r[i] == Timeout(kids[i], i * STAGGER_STEP)
  {
    if kids == [] then []
    else StaggerSchedule(kids[..|kids| - 1]) + [Timeout(kids[|kids| - 1], (|kids| - 1) * STAGGER_STEP)]
  }

  /** Child delays grow with the child's index, and the first child is revealed without delay. */
  lemma StaggerDelaysOrdered(kids: seq<Element>)
    ensures forall i, j :: 0 <= i <= j < |kids| ==>
      StaggerSchedule(kids)[i].delay <= StaggerSchedule(kids)[j].delay
    ensures |kids| > 0 ==> StaggerSchedule(kids)[0] == Timeout(kids[0], 0)
  {
    var r := StaggerSchedule(kids);
    forall i, j | 0 <= i <= j < |kids| ensures r[i].delay <= r[j].delay {
      assert r[i].delay == i * STAGGER_STEP && r[j].delay == j * STAGGER_STEP;
    }
  }

  /** The callback's work for one entry. */
  function RevealOne(m: ClassMap, children: map<Element, seq<Element>>, dataStagger: set<Element>,
                     e: Entry): Effect
  {
    if !e.isIntersecting then Effect(m, [])
    else if IsStaggerContainer(m, dataStagger, e.target) then
      Effect(AddClass(m, e.target, VISIBLE), StaggerSchedule(ChildrenOf(children, e.target)))
    else Effect(AddClass(m, e.target, VISIBLE), [])
  }

  /** The callback's work for a whole batch, entries handled in order (`entries.forEach`). */
  function RevealBatch(m: ClassMap, children: map<Element, seq<Element>>, dataStagger: set<Element>,
                       entries: seq<Entry>): Effect
  {
    if entries == [] then Effect(m, [])
    else
      var before := RevealBatch(m, children, dataStagger, entries[..|entries| - 1]);
      var last := RevealOne(before.classes, children, dataStagger, entries[|entries| - 1]);
      Effect(last.classes, before.scheduled + last.scheduled)
  }

  /** Some entry of the batch reports `x` as intersecting. */
  predicate SeenIntersecting(entries: seq<Entry>, x: Element) {
    exists i :: 0 <= i < |entries| && entries[i].target == x && entries[i].isIntersecting
  }

  /**
   The classes after a batch: exactly the old ones plus `visible` on every
   target reported intersecting. So no class is ever removed (in particular
   `visible` never goes away), and a non-intersecting entry changes nothing.
   */
  lemma {:induction false} RevealBatchClasses(m: ClassMap, children: map<Element, seq<Element>>,
                                              dataStagger: set<Element>, entries: seq<Entry>)
    ensures forall x, d :: Has(RevealBatch(m, children, dataStagger, entries).classes, x, d) <==>
      Has(m, x, d) || (d == VISIBLE && SeenIntersecting(entries, x))
  {
    if entries != [] {
      var init := entries[..|entries| - 1];
      var e := entries[|entries| - 1];
      RevealBatchClasses(m, children, dataStagger, init);
      var before := RevealBatch(m, children, dataStagger, init).classes;
      var r := RevealBatch(m, children, dataStagger, entries).classes;
      assert r == if e.isIntersecting then AddClass(before, e.target, VISIBLE) else before;
      forall x, d ensures Has(r, x, d) <==> Has(m, x, d) || (d == VISIBLE && SeenIntersecting(entries, x)) {
        if SeenIntersecting(entries, x) && !SeenIntersecting(init, x) {
          var i :| 0 <= i < |entries| && entries[i].target == x && entries[i].isIntersecting;
        }
        if SeenIntersecting(init, x) {
          var i :| 0 <= i < |init| && init[i].target == x && init[i].isIntersecting;
          assert entries[i] == init[i];
        }
      }
    }
  }

  /** A batch with no intersecting stagger container schedules no timeout. */
  lemma {:induction false} RevealBatchNoStagger(m: ClassMap, children: map<Element, seq<Element>>,
                                                dataStagger: set<Element>, entries: seq<Entry>)
    requires forall i :: 0 <= i < |entries| && entries[i].isIntersecting ==>
      !IsStaggerContainer(m, dataStagger, entries[i].target)
    ensures RevealBatch(m, children, dataStagger, entries).scheduled == []
  {
    if entries != [] {
      var init := entries[..|entries| - 1];
      forall i | 0 <= i < |init| && init[i].isIntersecting
        ensures !IsStaggerContainer(m, dataStagger, init[i].target)
      {
        assert init[i] == entries[i];
      }
      RevealBatchNoStagger(m, children, dataStagger, init);
      RevealBatchClasses(m, children, dataStagger, init);
      var before := RevealBatch(m, children, dataStagger, init).classes;
      var e := entries[|entries| - 1];
      assert Has(before, e.target, STAGGER) == Has(m, e.target, STAGGER);
    }
  }

  /**
   The timeouts a batch should schedule, judged against the classes before
   the batch: for each intersecting stagger container, in entry order, its
   children's schedule.
   */
  function StaggerTimeouts(m: ClassMap, children: map<Element, seq<Element>>, dataStagger: set<Element>,
                           entries: seq<Entry>): seq<Timeout>
  {
    if entries == [] then []
    else
      var e := entries[|entries| - 1];
      StaggerTimeouts(m, children, dataStagger, entries[..|entries| - 1]) +
        (if e.isIntersecting && IsStaggerContainer(m, dataStagger, e.target)
         then StaggerSchedule(ChildrenOf(children, e.target)) else [])
  }

  /**
   The callback schedules exactly `StaggerTimeouts`: marking elements
   `visible` never changes which of them count as stagger containers.
   */
  lemma {:induction false} RevealBatchScheduled(m: ClassMap, children: map<Element, seq<Element>>,
                                                dataStagger: set<Element>, entries: seq<Entry>)
    ensures RevealBatch(m, children, dataStagger, entries).scheduled ==
      StaggerTimeouts(m, children, dataStagger, entries)
  {
    if entries != [] {
      var init := entries[..|entries| - 1];
      RevealBatchScheduled(m, children, dataStagger, init);
      RevealBatchClasses(m, children, dataStagger, init);
      var before := RevealBatch(m, children, dataStagger, init).classes;
      var e := entries[|entries| - 1];
      assert Has(before, e.target, STAGGER) == Has(m, e.target, STAGGER);
    }
  }

  /** `t` is child `i` of the target of entry `k`, an intersecting stagger container, with delay `i * 80`. */
  predicate ScheduledFor(m: ClassMap, children: map<Element, seq<Element>>, dataStagger: set<Element>,
                         entries: seq<Entry>, t: Timeout, k: int, i: int)
  {
    && 0 <= k < |entries|
    && entries[k].isIntersecting
    && IsStaggerContainer(m, dataStagger, entries[k].target)
    && 0 <= i < |ChildrenOf(children, entries[k].target)|
    && t == Timeout(ChildrenOf(children, entries[k].target)[i], i * STAGGER_STEP)
  }

  /** Every timeout a batch schedules belongs to a child of an intersecting stagger container of the batch. */
  lemma {:induction false} StaggerTimeoutsOrigin(m: ClassMap, children: map<Element, seq<Element>>,
                                                 dataStagger: set<Element>, entries: seq<Entry>, t: Timeout)
    requires t in StaggerTimeouts(m, children, dataStagger, entries)
    ensures exists k, i :: ScheduledFor(m, children, dataStagger, entries, t, k, i)
  {
    var init := entries[..|entries| - 1];
    var e := entries[|entries| - 1];
    if t in StaggerTimeouts(m, children, dataStagger, init) {
      StaggerTimeoutsOrigin(m, children, dataStagger, init, t);
      var k, i :| ScheduledFor(m, children, dataStagger, init, t, k, i);
      assert init[k] == entries[k];
      assert ScheduledFor(m, children, dataStagger, entries, t, k, i);
    } else {
      var kids := ChildrenOf(children, e.target);
      var i :| 0 <= i < |kids| && StaggerSchedule(kids)[i] == t;
      assert ScheduledFor(m, children, dataStagger, entries, t, |entries| - 1, i);
    }
  }

  /**
   An intersecting stagger container is marked `visible` by the callback
   itself, while each child `i` only gets a pending timeout with delay
   `i * 80`: the container is revealed no later than its first child.
   */
  lemma RevealOneStagger(m: ClassMap, children: map<Element, seq<Element>>, dataStagger: set<Element>,
                         e: Entry)
    requires e.isIntersecting && IsStaggerContainer(m, dataStagger, e.target)
    ensures Has(RevealOne(m, children, dataStagger, e).classes, e.target, VISIBLE)
    ensures var kids := ChildrenOf(children, e.target);
      var s := RevealOne(m, children, dataStagger, e).scheduled;
      |s| == |kids| && forall i :: 0 <= i < |kids| ==> s[i].target == kids[i] && s[i].delay == i * STAGGER_STEP
  {
  }

  /** The reveal observer together with the timeouts it has scheduled and not yet fired. */
  class RevealEngine {
    const doc: Document
    const children: map<Element, seq<Element>>
    const dataStagger: set<Element>
    var pending: seq<Timeout>

    constructor (doc: Document, children: map<Element, seq<Element>>, dataStagger: set<Element>)
      ensures this.doc == doc && this.children == children && this.dataStagger == dataStagger
      ensures pending == []
    {
      this.doc := doc;
      this.children := children;
      this.dataStagger := dataStagger;
      pending := [];
    }

    /** The observer callback, main.js:9-28. */
    method OnEntries(entries: seq<Entry>)
      modifies doc`classes, this`pending
      ensures var eff := RevealBatch(old(doc.classes), children, dataStagger, entries);
        doc.classes == eff.classes && pending == old(pending) + eff.scheduled
    {
      for n := 0 to |entries|
        invariant var eff := RevealBatch(old(doc.classes), children, dataStagger, entries[..n]);
          doc.classes == eff.classes && pending == old(pending) + eff.scheduled
      {
        assert entries[..n + 1][..n] == entries[..n];
        HandleEntry(entries[n]);
      }
      assert entries[..|entries|] == entries;
    }

    /** The callback body for one entry (main.js:11-26). */
    method HandleEntry(entry: Entry)
      modifies doc`classes, this`pending
      ensures var eff := RevealOne(old(doc.classes), children, dataStagger, entry);
        doc.classes == eff.classes && pending == old(pending) + eff.scheduled
    {
      if entry.isIntersecting {
        var el := entry.target;
        if Has(doc.classes, el, STAGGER) || el in dataStagger {
          doc.Add(el, VISIBLE);
          ScheduleChildren(ChildrenOf(children, el));
        } else {
          doc.Add(el, VISIBLE);
        }
      }
    }

    /** `children.forEach((child, i) => setTimeout(..., i * 80))` (main.js:18-22). */
    method ScheduleChildren(kids: seq<Element>)
      modifies this`pending
      ensures pending == old(pending) + StaggerSchedule(kids)
    {
      for i := 0 to |kids|
        invariant pending == old(pending) + StaggerSchedule(kids[..i])
      {
        assert kids[..i + 1][..i] == kids[..i];
        pending := pending + [Timeout(kids[i], i * STAGGER_STEP)];
      }
      assert kids[..|kids|] == kids;
    }

    /** Pending timeout `k` fires: its child gets `visible`, and it is no longer pending. */
    method FireTimeout(k: nat)
      requires k < |pending|
      modifies doc`classes, this`pending
      ensures doc.classes == AddClass(old(doc.classes), old(pending)[k].target, VISIBLE)
      ensures pending == old(pending)[..k] + old(pending)[k + 1..]
    {
      var t := pending[k];
      pending := pending[..k] + pending[k + 1..];
      doc.Add(t.target, VISIBLE);
    }
  }
}
