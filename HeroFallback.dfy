/**
 The hero fallback synchroniser (main.js:36-89). It decides whether the
 fallback overlay `.hero-fallback`, and the optional `.header-welcome`,
 carry the class `hidden`, from three inputs:
   - entries of the heading's own IntersectionObserver (main.js:40-65);
   - class-change notifications delivered to MutationObservers that watch
     the heading (created at main.js:50-57 and main.js:78-85);
   - one start-up check, run by a 50 ms timeout (main.js:71-88).
 The synchroniser exists only when both the heading and the overlay are
 found (main.js:39); `HeroSync` is built only in that case.

 A MutationObserver is modelled by a connected flag: `watchers[w]` is true
 while observer `w` is connected, and a notification is the event
 `HeroSync.OnClassChange(w)`.
 */
module HeroFallback {
  import opened Dom
  import Reveal
  import ScrollMetrics
  import NavTracker

  /** The heading, the overlay and the optional header welcome. */
  datatype Pair = Pair(heading: Element, fallback: Element, welcome: Option<Element>)

  /** The class sets and the connected flag of every watcher created so far. */
  datatype HeroState = HeroState(classes: ClassMap, watchers: seq<bool>)

  /** `x` is the overlay or the header welcome. */
  predicate IsOverlay(p: Pair, x: Element) {
    x == p.fallback || p.welcome == Some(x)
  }

  predicate HeadingVisible(m: ClassMap, p: Pair) {
    Has(m, p.heading, VISIBLE)
  }

  /** `heroFallback.classList.add('hidden'); if (headerWelcome) headerWelcome.classList.add('hidden');` */
  function HideOverlays(m: ClassMap, p: Pair): (r: ClassMap)
    ensures forall x, d :: Has(r, x, d) <==> Has(m, x, d) || (d == HIDDEN && IsOverlay(p, x))
  {
    var m' := AddClass(m, p.fallback, HIDDEN);
    if p.welcome.Some? then AddClass(m', p.welcome.value, HIDDEN) else m'
  }

  /** `heroFallback.classList.remove('hidden'); if (headerWelcome) headerWelcome.classList.remove('hidden');` */
  function ShowOverlays(m: ClassMap, p: Pair): (r: ClassMap)
    ensures forall x, d :: Has(r, x, d) <==> Has(m, x, d) && !(d == HIDDEN && IsOverlay(p, x))
  {
    var m' := RemoveClass(m, p.fallback, HIDDEN);
    if p.welcome.Some? then RemoveClass(m', p.welcome.value, HIDDEN) else m'
  }

  /**
   The branch shared by the observer callback and the start-up check once the
   heading counts as in view: hide at once if the heading already has
   `visible`, otherwise connect a new watcher (main.js:45-58 and 73-86).
   */
  function HideOrWatch(p: Pair, s: HeroState): HeroState {
    if HeadingVisible(s.classes, p) then HeroState(HideOverlays(s.classes, p), s.watchers)
    else HeroState(s.classes, s.watchers + [true])
  }

  /** One entry of the heading's observer (main.js:44-63). */
  function HeadingEntry(p: Pair, s: HeroState, isIntersecting: bool): HeroState {
    if isIntersecting then HideOrWatch(p, s)
    else HeroState(ShowOverlays(s.classes, p), s.watchers)
  }

  /** The heading observer's callback on a batch of entries, in order (main.js:40-65). */
  function HeadingBatch(p: Pair, s: HeroState, entries: seq<bool>): HeroState {
    if entries == [] then s
    else HeadingEntry(p, HeadingBatch(p, s, entries[..|entries| - 1]), entries[|entries| - 1])
  }

  /**
   Watcher `w` is notified of a class change on the heading (main.js:50-56,
   78-84). A disconnected watcher receives nothing.
   */
  function ClassChange(p: Pair, s: HeroState, w: nat): HeroState
    requires w < |s.watchers|
  {
    if s.watchers[w] && HeadingVisible(s.classes, p) then
      HeroState(HideOverlays(s.classes, p), s.watchers[w := false])
    else s
  }

  /** The start-up check: only `top < innerHeight` is tested (main.js:71-88). */
  function StartupCheck(p: Pair, s: HeroState, top: real, innerHeight: real): HeroState {
    if top < innerHeight then HideOrWatch(p, s) else s
  }

  /** An overlay carries `hidden` only while the heading carries `visible`. */
  predicate HiddenOnlyWhenRevealed(p: Pair, m: ClassMap) {
    (Has(m, p.fallback, HIDDEN) || (p.welcome.Some? && Has(m, p.welcome.value, HIDDEN))) ==>
      HeadingVisible(m, p)
  }

  /** Both overlays (the welcome only if it exists) carry `hidden`. */
  predicate OverlaysHidden(p: Pair, m: ClassMap) {
    Has(m, p.fallback, HIDDEN) && (p.welcome.Some? ==> Has(m, p.welcome.value, HIDDEN))
  }

  /** Neither overlay carries `hidden`. */
  predicate OverlaysShown(p: Pair, m: ClassMap) {
    !Has(m, p.fallback, HIDDEN) && (p.welcome.Some? ==> !Has(m, p.welcome.value, HIDDEN))
  }

  /**
   One entry: intersecting with the heading already `visible` hides both
   overlays; not intersecting shows both; intersecting without `visible`
   leaves every class as it was and connects one more watcher. No entry
   disconnects a watcher, and only the overlays' `hidden` ever changes.
   */
  lemma HeadingEntryEffect(p: Pair, s: HeroState, isIntersecting: bool)
    ensures var r := HeadingEntry(p, s, isIntersecting);
      && (isIntersecting && HeadingVisible(s.classes, p) ==>
            OverlaysHidden(p, r.classes) && r.watchers == s.watchers)
      && (!isIntersecting ==> OverlaysShown(p, r.classes) && r.watchers == s.watchers)
      && (isIntersecting && !HeadingVisible(s.classes, p) ==>
            r.classes == s.classes && r.watchers == s.watchers + [true])
      && (forall x, d :: d != HIDDEN || !IsOverlay(p, x) ==> (Has(r.classes, x, d) <==> Has(s.classes, x, d)))
  {
  }

  /**
   Across a batch the heading's classes stay as they were, watchers are only
   ever added (connected), and the last entry decides: leaving the viewport
   shows the overlays, entering it with the heading `visible` hides them.
   */
  lemma {:induction false} HeadingBatchEffect(p: Pair, s: HeroState, entries: seq<bool>)
    ensures var r := HeadingBatch(p, s, entries);
      && (forall x, d :: d != HIDDEN || !IsOverlay(p, x) ==> (Has(r.classes, x, d) <==> Has(s.classes, x, d)))
      && |s.watchers| <= |r.watchers|
      && r.watchers[..|s.watchers|] == s.watchers
      && (forall w :: |s.watchers| <= w < |r.watchers| ==> r.watchers[w])
      && (entries != [] && !entries[|entries| - 1] ==> OverlaysShown(p, r.classes))
      && (entries != [] && entries[|entries| - 1] && HeadingVisible(s.classes, p) ==> OverlaysHidden(p, r.classes))
  {
    if entries != [] {
      var init := entries[..|entries| - 1];
      HeadingBatchEffect(p, s, init);
      var mid := HeadingBatch(p, s, init);
      HeadingEntryEffect(p, mid, entries[|entries| - 1]);
      assert HeadingVisible(mid.classes, p) == HeadingVisible(s.classes, p);
    }
  }

  /**
   Several watchers can be connected at once: two intersecting entries
   before the heading is `visible` connect two of them.
   */
  lemma {:induction false} SeveralWatchers(p: Pair, s: HeroState)
    requires !HeadingVisible(s.classes, p)
    ensures HeadingBatch(p, s, [true, true]).watchers == s.watchers + [true, true]
  {
    var one, two := [true], [true, true];
    assert one[..0] == [] && two[..1] == one;
    assert HeadingBatch(p, s, one[..0]) == s;
    var s1 := HeadingBatch(p, s, one);
    assert s1 == HeadingEntry(p, s, true);
    assert s1.classes == s.classes && s1.watchers == s.watchers + [true];
    var s2 := HeadingBatch(p, s, two);
    assert s2 == HeadingEntry(p, s1, true);
    assert s2.watchers == s1.watchers + [true];
  }

  /**
   A watcher changes nothing while the heading lacks `visible`; on the first
   notification with `visible` it hides both overlays and disconnects, so any
   later notification to it changes nothing: it hides exactly once.
   */
  lemma ClassChangeOneShot(p: Pair, s: HeroState, w: nat)
    requires w < |s.watchers|
    ensures !HeadingVisible(s.classes, p) ==> ClassChange(p, s, w) == s
    ensures !s.watchers[w] ==> ClassChange(p, s, w) == s
    ensures s.watchers[w] && HeadingVisible(s.classes, p) ==>
      var r := ClassChange(p, s, w);
      && OverlaysHidden(p, r.classes)
      && !r.watchers[w]
      && (forall v :: 0 <= v < |s.watchers| && v != w ==> r.watchers[v] == s.watchers[v])
      && ClassChange(p, r, w) == r
  {
  }

  /**
   A disconnected watcher stays disconnected, and so inert, in every later
   state: neither a batch of the heading observer, nor a notification to any
   watcher, nor the start-up check connects it again.
   */
  lemma {:induction false} DisconnectedStaysInert(p: Pair, s: HeroState, w: nat, entries: seq<bool>)
    requires w < |s.watchers| && !s.watchers[w]
    ensures var r := HeadingBatch(p, s, entries);
      w < |r.watchers| && !r.watchers[w] && ClassChange(p, r, w) == r
    ensures forall v :: 0 <= v < |s.watchers| ==> !ClassChange(p, s, v).watchers[w]
    ensures forall top, innerHeight ::
      w < |StartupCheck(p, s, top, innerHeight).watchers| && !StartupCheck(p, s, top, innerHeight).watchers[w]
  {
    HeadingBatchEffect(p, s, entries);
    var r := HeadingBatch(p, s, entries);
    assert r.watchers[w] == r.watchers[..|s.watchers|][w];
  }

  /**
   Once a watcher has hidden the overlays and disconnected, the heading
   leaving the viewport shows them again, and a later notification to that
   watcher leaves them shown, whatever the heading's classes.
   */
  lemma {:induction false} NoRehideAfterDisconnect(p: Pair, s: HeroState, w: nat, entries: seq<bool>)
    requires w < |s.watchers| && s.watchers[w] && HeadingVisible(s.classes, p)
    requires entries != [] && !entries[|entries| - 1]
    ensures var r := HeadingBatch(p, ClassChange(p, s, w), entries);
      && OverlaysShown(p, r.classes)
      && HeadingVisible(r.classes, p)
      && w < |r.watchers|
      && OverlaysShown(p, ClassChange(p, r, w).classes)
  {
    var fired := ClassChange(p, s, w);
    ClassChangeOneShot(p, s, w);
    HeadingBatchEffect(p, fired, entries);
    DisconnectedStaysInert(p, fired, w, entries);
  }

  /**
   The start-up check tests only `top < innerHeight`: below the viewport it
   does nothing; otherwise it acts as an intersecting entry would.
   */
  lemma StartupCheckEffect(p: Pair, s: HeroState, top: real, innerHeight: real)
    ensures top >= innerHeight ==> StartupCheck(p, s, top, innerHeight) == s
    ensures top < innerHeight ==> StartupCheck(p, s, top, innerHeight) == HeadingEntry(p, s, true)
    ensures top < innerHeight && HeadingVisible(s.classes, p) ==>
      OverlaysHidden(p, StartupCheck(p, s, top, innerHeight).classes)
    ensures top < innerHeight && !HeadingVisible(s.classes, p) ==>
      StartupCheck(p, s, top, innerHeight).watchers == s.watchers + [true]
  {
  }

  /**
   `hidden` is only ever added to an overlay while the heading is `visible`,
   and nothing here takes `visible` away, so every handler keeps
   `HiddenOnlyWhenRevealed`.
   */
  lemma {:induction false} HeadingBatchKeepsRevealed(p: Pair, s: HeroState, entries: seq<bool>)
    requires HiddenOnlyWhenRevealed(p, s.classes)
    ensures HiddenOnlyWhenRevealed(p, HeadingBatch(p, s, entries).classes)
  {
    if entries != [] {
      var init := entries[..|entries| - 1];
      HeadingBatchKeepsRevealed(p, s, init);
      HeadingEntryEffect(p, HeadingBatch(p, s, init), entries[|entries| - 1]);
    }
  }

  lemma ClassChangeKeepsRevealed(p: Pair, s: HeroState, w: nat)
    requires w < |s.watchers|
    requires HiddenOnlyWhenRevealed(p, s.classes)
    ensures HiddenOnlyWhenRevealed(p, ClassChange(p, s, w).classes)
  {
  }

  lemma StartupCheckKeepsRevealed(p: Pair, s: HeroState, top: real, innerHeight: real)
    requires HiddenOnlyWhenRevealed(p, s.classes)
    ensures HiddenOnlyWhenRevealed(p, StartupCheck(p, s, top, innerHeight).classes)
  {
    HeadingEntryEffect(p, s, true);
  }

  /** The reveal engine only adds classes, so it keeps the property too. */
  lemma RevealKeepsRevealed(p: Pair, m: ClassMap, children: map<Element, seq<Element>>,
                            dataStagger: set<Element>, entries: seq<Reveal.Entry>)
    requires HiddenOnlyWhenRevealed(p, m)
    ensures HiddenOnlyWhenRevealed(p, Reveal.RevealBatch(m, children, dataStagger, entries).classes)
  {
    Reveal.RevealBatchClasses(m, children, dataStagger, entries);
  }

  /** A stagger timeout firing only adds `visible`, so it keeps the property. */
  lemma FireTimeoutKeepsRevealed(p: Pair, m: ClassMap, child: Element)
    requires HiddenOnlyWhenRevealed(p, m)
    ensures HiddenOnlyWhenRevealed(p, AddClass(m, child, VISIBLE))
  {
  }

  /** The header update touches only `scrolled`, so it keeps the property. */
  lemma HeaderKeepsRevealed(p: Pair, m: ClassMap, header: Option<Element>, scrollY: real)
    requires HiddenOnlyWhenRevealed(p, m)
    ensures HiddenOnlyWhenRevealed(p, ScrollMetrics.HeaderClasses(m, header, scrollY))
  {
  }

  /** The navigation observer touches only `active` and `in-view`, so it keeps the property. */
  lemma NavKeepsRevealed(p: Pair, m: ClassMap, links: seq<NavTracker.Link>, entries: seq<NavTracker.NavEntry>)
    requires HiddenOnlyWhenRevealed(p, m)
    ensures HiddenOnlyWhenRevealed(p, NavTracker.NavBatch(m, links, entries))
  {
    NavTracker.NavBatchFrame(m, links, entries);
  }

  /**
   The overlay can be hidden while the heading is out of view: a watcher
   connected while the heading was in view but not yet `visible` is not
   disconnected when the heading leaves, and it hides the overlay once the
   heading gains `visible`. So "hidden exactly when in view and visible"
   does not hold of the code.
   */
  lemma HiddenWhileOutOfView()
    ensures var p := Pair(0, 1, None);
      var s0 := HeroState(map[], []);
      var s1 := HeadingBatch(p, s0, [true, false]);
      var s2 := HeroState(AddClass(s1.classes, p.heading, VISIBLE), s1.watchers);
      && |s1.watchers| == 1
      && OverlaysShown(p, s1.classes)
      && OverlaysHidden(p, ClassChange(p, s2, 0).classes)
  {
    var p := Pair(0, 1, None);
    var s0 := HeroState(map[], []);
    assert [true, false][..1] == [true];
    assert [true][..0] == [];
    assert HeadingBatch(p, s0, [true]) == HeroState(map[], [true]);
  }

  /** The synchroniser: the heading observer's callback, the watchers it connects and the start-up check. */
  class HeroSync {
    const doc: Document
    const pair: Pair
    var watchers: seq<bool>

    constructor (doc: Document, pair: Pair)
      ensures this.doc == doc && this.pair == pair && watchers == []
    {
      this.doc := doc;
      this.pair := pair;
      watchers := [];
    }

    function State(): HeroState
      reads this, doc
    {
      HeroState(doc.classes, watchers)
    }

    method HideOverlaysNow()
      modifies doc`classes
      ensures doc.classes == HideOverlays(old(doc.classes), pair)
    {
      doc.Add(pair.fallback, HIDDEN);
      if pair.welcome.Some? {
        doc.Add(pair.welcome.value, HIDDEN);
      }
    }

    method ShowOverlaysNow()
      modifies doc`classes
      ensures doc.classes == ShowOverlays(old(doc.classes), pair)
    {
      doc.Remove(pair.fallback, HIDDEN);
      if pair.welcome.Some? {
        doc.Remove(pair.welcome.value, HIDDEN);
      }
    }

    method HideOrWatchNow()
      modifies doc`classes, this`watchers
      ensures State() == HideOrWatch(pair, old(State()))
    {
      if Has(doc.classes, pair.heading, VISIBLE) {
        HideOverlaysNow();
      } else {
        watchers := watchers + [true];
      }
    }

    /** The heading observer's callback (main.js:40-65). */
    method OnEntries(entries: seq<bool>)
      modifies doc`classes, this`watchers
      ensures State() == HeadingBatch(pair, old(State()), entries)
    {
      for n := 0 to |entries|
        invariant State() == HeadingBatch(pair, old(State()), entries[..n])
      {
        assert entries[..n + 1][..n] == entries[..n];
        if entries[n] {
          HideOrWatchNow();
        } else {
          ShowOverlaysNow();
        }
      }
      assert entries[..|entries|] == entries;
    }

    /** Watcher `w` is notified of a class change on the heading. */
    method OnClassChange(w: nat)
      requires w < |watchers|
      modifies doc`classes, this`watchers
      ensures State() == ClassChange(pair, old(State()), w)
    {
      if watchers[w] && Has(doc.classes, pair.heading, VISIBLE) {
        HideOverlaysNow();
        watchers := watchers[w := false];
      }
    }

    /** The start-up timeout fires with the heading's `top` and `window.innerHeight`. */
    method RunStartupCheck(top: real, innerHeight: real)
      modifies doc`classes, this`watchers
      ensures State() == StartupCheck(pair, old(State()), top, innerHeight)
    {
      if top < innerHeight {
        HideOrWatchNow();
      }
    }
  }
}
