/**
 The scroll metrics (main.js:91-105) and the frame-coalescing guard
 (main.js:134-151). On every frame the page recomputes the progress bar's
 width and the header's `scrolled` class from the window's scroll state;
 scroll events are coalesced through a `ticking` flag so that at most one
 animation-frame callback is pending.

 The window's geometry is an input (`Viewport`), and a requested
 animation frame is a pending event: `ScrollEngine.RunFrame` is that
 callback being run by the browser.
 */
module ScrollMetrics {
  import opened Dom

  /** Scroll offset past which the header carries `scrolled`. */
  const HEADER_THRESHOLD: real := 18.0

  /** The window state the updates read. `pageYOffset` is the browser's older alias of `scrollY`. */
  datatype Viewport = Viewport(scrollY: real, pageYOffset: real, scrollHeight: real, innerHeight: real)

  /** `window.scrollY || window.pageYOffset`: a zero `scrollY` falls back to `pageYOffset`. */
  function ScrollTop(v: Viewport): (top: real)
    ensures v.scrollY != 0.0 ==> top == v.scrollY
    ensures v.pageYOffset == v.scrollY ==> top == v.scrollY
  {
    if v.scrollY != 0.0 then v.scrollY else v.pageYOffset
  }

  /**
   The progress percentage (main.js:94-96): the scroll offset as a share of
   the scrollable height, and exactly 0 when the page cannot scroll.
   */
  function Progress(scrollTop: real, scrollHeight: real, innerHeight: real): (pct: real)
    ensures scrollHeight - innerHeight <= 0.0 ==> pct == 0.0
    ensures scrollHeight - innerHeight > 0.0 ==> pct * (scrollHeight - innerHeight) == scrollTop * 100.0
  {
    var docHeight := scrollHeight - innerHeight;
    if docHeight > 0.0 then scrollTop / docHeight * 100.0 else 0.0
  }

  /**
   600 px scrolled of a 2000 px page in an 800 px window is 50 %; a page no
   taller than the window gives 0; an offset past the scrollable height
   (overscroll) gives more than 100 %.
   */
  lemma ProgressExample()
    ensures Progress(600.0, 2000.0, 800.0) == 50.0
    ensures Progress(0.0, 800.0, 800.0) == 0.0
    ensures Progress(1500.0, 2000.0, 800.0) == 125.0
  {
  }

  /**
   There is no clamp: the percentage lies in [0, 100] exactly when the
   scroll offset lies between 0 and the scrollable height.
   */
  lemma ProgressInRange(scrollTop: real, scrollHeight: real, innerHeight: real)
    requires scrollHeight - innerHeight > 0.0
    ensures var pct := Progress(scrollTop, scrollHeight, innerHeight);
      (0.0 <= pct <= 100.0) <==> (0.0 <= scrollTop <= scrollHeight - innerHeight)
  {
    var d := scrollHeight - innerHeight;
    var pct := Progress(scrollTop, scrollHeight, innerHeight);
    assert pct * d == scrollTop * 100.0;
    // both directions reduce to the sign of a product with the positive `d`
    SignOfProduct(pct, d);
    SignOfProduct(100.0 - pct, d);
    assert (100.0 - pct) * d == 100.0 * d - pct * d;
  }

  lemma SignOfProduct(a: real, d: real)
    requires d > 0.0
    ensures a >= 0.0 <==> a * d >= 0.0
  {
    if a < 0.0 {
      assert (-a) * d > 0.0;
    }
  }

  /** Scrolling further never shrinks the bar. */
  lemma ProgressMonotone(a: real, b: real, scrollHeight: real, innerHeight: real)
    requires a <= b
    ensures Progress(a, scrollHeight, innerHeight) <= Progress(b, scrollHeight, innerHeight)
  {
    var d := scrollHeight - innerHeight;
    if d > 0.0 {
      var pa, pb := Progress(a, scrollHeight, innerHeight), Progress(b, scrollHeight, innerHeight);
      assert pa * d == a * 100.0 && pb * d == b * 100.0;
      assert (pb - pa) * d == pb * d - pa * d;
      SignOfProduct(pb - pa, d);
    }
  }

  /** `updateProgress` (main.js:93-98): the bar's width, if there is a bar. */
  function ProgressWidths(widths: map<Element, real>, bar: Option<Element>, v: Viewport): (r: map<Element, real>)
    ensures bar.None? ==> r == widths
    ensures bar.Some? ==>
      && r.Keys == widths.Keys + {bar.value}
      && (v.scrollHeight - v.innerHeight > 0.0 ==>
            r[bar.value] * (v.scrollHeight - v.innerHeight) == ScrollTop(v) * 100.0)
      && (v.scrollHeight - v.innerHeight <= 0.0 ==> r[bar.value] == 0.0)
      && forall e :: e in widths && e != bar.value ==> r[e] == widths[e]
  {
    if bar.Some? then widths[bar.value := Progress(ScrollTop(v), v.scrollHeight, v.innerHeight)] else widths
  }

  /** `updateHeader` (main.js:102-105): `scrolled` iff `scrollY > 18`; no header, no change. */
  function HeaderClasses(m: ClassMap, header: Option<Element>, scrollY: real): (r: ClassMap)
    ensures header.None? ==> r == m
    ensures header.Some? ==> (Has(r, header.value, SCROLLED) <==> scrollY > HEADER_THRESHOLD)
    ensures forall x: Element, d :: (header != Some(x) || d != SCROLLED) ==> (Has(r, x, d) <==> Has(m, x, d))
  {
    match header
    case None => m
    case Some(h) =>
      if scrollY > HEADER_THRESHOLD then AddClass(m, h, SCROLLED) else RemoveClass(m, h, SCROLLED)
  }

  /** At 18 px the header is not `scrolled`; at 19 px it is. */
  lemma HeaderThresholdExample(m: ClassMap, h: Element)
    ensures !Has(HeaderClasses(m, Some(h), 18.0), h, SCROLLED)
    ensures Has(HeaderClasses(m, Some(h), 19.0), h, SCROLLED)
  {
  }

  /**
   The coalescing guard: `ticking` and the number of requested animation
   frames whose callback has not run yet.
   */
  datatype Guard = Guard(ticking: bool, pending: nat)

  /** `onScroll` (main.js:136-146): request a frame only when none is in flight. */
  function OnScroll(g: Guard): Guard {
    if !g.ticking then Guard(true, g.pending + 1) else g
  }

  /** The frame callback has run: it clears `ticking` (main.js:142). */
  function FrameDone(g: Guard): Guard
    requires g.pending > 0
  {
    Guard(false, g.pending - 1)
  }

  /** `n` scroll events in a row. */
  function Scrolls(g: Guard, n: nat): Guard {
    if n == 0 then g else OnScroll(Scrolls(g, n - 1))
  }

  /** `ticking` is set exactly while one frame is pending, and never more than one is. */
  predicate Coalesced(g: Guard) {
    g.pending == if g.ticking then 1 else 0
  }

  const Idle := Guard(false, 0)

  /** A scroll event and a frame callback each keep the guard coalesced. */
  lemma GuardKeepsCoalesced(g: Guard)
    requires Coalesced(g)
    ensures Coalesced(OnScroll(g)) && OnScroll(g).pending <= 1
    ensures g.ticking ==> OnScroll(g) == g
    ensures g.pending > 0 ==> Coalesced(FrameDone(g)) && !FrameDone(g).ticking
  {
  }

  /**
   Any burst of `n >= 1` scroll events from a coalesced guard leaves exactly
   one frame pending; after it runs the guard is idle again, so the burst
   caused exactly one recomputation.
   */
  lemma {:induction false} BurstRequestsOneFrame(g: Guard, n: nat)
    requires Coalesced(g)
    ensures Coalesced(Scrolls(g, n))
    ensures n >= 1 ==> Scrolls(g, n) == Guard(true, 1)
    ensures n >= 1 ==> FrameDone(Scrolls(g, n)) == Idle
  {
    if n > 0 {
      BurstRequestsOneFrame(g, n - 1);
    }
  }

  /** The updates driven by scrolling, with their frame guard. */
  class ScrollEngine {
    const doc: Document
    const progressBar: Option<Element>
    const header: Option<Element>
    var ticking: bool
    var pendingFrames: nat

    function GuardState(): Guard
      reads this
    {
      Guard(ticking, pendingFrames)
    }

    constructor (doc: Document, progressBar: Option<Element>, header: Option<Element>)
      ensures this.doc == doc && this.progressBar == progressBar && this.header == header
      ensures GuardState() == Idle
    {
      this.doc := doc;
      this.progressBar := progressBar;
      this.header := header;
      ticking := false;
      pendingFrames := 0;
    }

    /**
     `updateProgress(); updateHeader();` — run once at start-up
     (main.js:149-150) and by every frame callback.
     */
    method Refresh(v: Viewport)
      modifies doc
      ensures doc.widths == ProgressWidths(old(doc.widths), progressBar, v)
      ensures doc.classes == HeaderClasses(old(doc.classes), header, v.scrollY)
    {
      var docHeight := v.scrollHeight - v.innerHeight;
      var scrollTop := if v.scrollY != 0.0 then v.scrollY else v.pageYOffset;
      var pct := if docHeight > 0.0 then scrollTop / docHeight * 100.0 else 0.0;
      if progressBar.Some? {
        doc.SetWidth(progressBar.value, pct);
      }
      if header.Some? {
        if v.scrollY > HEADER_THRESHOLD {
          doc.Add(header.value, SCROLLED);
        } else {
          doc.Remove(header.value, SCROLLED);
        }
      }
    }

    /** A scroll event (main.js:136-146). */
    method OnScrollEvent()
      modifies this`ticking, this`pendingFrames
      ensures GuardState() == OnScroll(old(GuardState()))
    {
      if !ticking {
        pendingFrames := pendingFrames + 1;
        ticking := true;
      }
    }

    /** The browser runs a requested animation-frame callback (main.js:138-143). */
    method RunFrame(v: Viewport)
      requires pendingFrames > 0
      modifies this`ticking, this`pendingFrames, doc
      ensures doc.widths == ProgressWidths(old(doc.widths), progressBar, v)
      ensures doc.classes == HeaderClasses(old(doc.classes), header, v.scrollY)
      ensures GuardState() == FrameDone(old(GuardState()))
    {
      Refresh(v);
      ticking := false;
      pendingFrames := pendingFrames - 1;
    }
  }
}
