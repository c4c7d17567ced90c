# Scroll-driven page state of esperanza-viva.github.io, in Dafny

This project models the state machines inside the page script `main.js`.
The script runs once the document is loaded. It does four things:

- It reveals elements as they scroll into view. An element gets the class
  `visible`. A stagger container gets it at once, and its children get it one
  by one, 80 ms apart.
- It keeps a fallback overlay over the hero heading, plus an optional header
  welcome. The overlay is hidden once the heading is in view and has been
  revealed, and shown again when the heading leaves the viewport.
- It turns the scroll offset into a progress-bar width and a `scrolled` class
  on the header. A `ticking` flag batches scroll events so that at most one
  animation-frame callback is pending.
- It highlights the navigation link of the section in the middle band of the
  viewport (`active`). It also marks each observed section `in-view`.

The DOM is abstract. An element is a number, and the document (`Dom.Document`)
holds each element's set of class names and the progress bar's inline width.
Everything the browser delivers is an input to a handler method:

- intersection entries (target and `isIntersecting`);
- class-change notifications to the heading's MutationObservers;
- firing of a pending `setTimeout`;
- running of a requested animation frame;
- the window geometry (`scrollY`, `pageYOffset`, `scrollHeight`, `innerHeight`,
  and the heading's `top`).

Each component is a class that shares one `Document`:

- `Reveal.RevealEngine` keeps its pending timeouts.
- `HeroFallback.HeroSync` keeps a connected flag per MutationObserver it has
  created.
- `ScrollMetrics.ScrollEngine` keeps `ticking` and the number of requested
  frames.
- `NavTracker.Tracker` keeps the links.

Each handler method is proved equal to a pure function of the old state and
its input. The properties the script promises are lemmas about those functions.

The comments in `main.js` state the intent of the overlay logic: the
fallback should disappear only after the heading's animation has finished
(main.js:42-43), and it should be shown while the heading is not in the
viewport (main.js:60). The code can enforce the first only in part: it waits
for the class `visible`, and adding that class starts the heading's CSS
transition rather than ending it. So the model proves the part the code does
enforce, that an overlay is hidden only while the heading is `visible`. The
second intent does not hold of the code. The model follows the code and
records two facts about its watchers:

- The overlay is not hidden exactly when the heading is in view and
  `visible`. A MutationObserver created while the heading was in view but not
  yet `visible` stays connected after the heading leaves. It then hides the
  overlay when `visible` arrives, as `HiddenWhileOutOfView` shows. What does
  hold is proved: an overlay is hidden only while the heading is `visible`
  (`HiddenOnlyWhenRevealed`). Every handler that writes the shared class sets
  keeps it: the heading observer, the watchers and the start-up check, the
  reveal observer and its timeouts, the header update and the navigation
  observer.
- More than one MutationObserver can be connected at a time
  (`SeveralWatchers`). Each one disconnects only itself, and only after it has
  hidden the overlay.

## Model

| member | source | states |
|---|---|---|
| `Dom.AddClass` | main.js:24 | afterwards the element has the class; every other (element, class) pair is as before |
| `Dom.RemoveClass` | main.js:61 | afterwards the element lacks the class; every other pair is as before |
| `Dom.ToggleClass` | main.js:116 | `toggle(c, force)`: the element has `c` exactly when `force` holds; every other pair is as before |
| `Dom.Document.Add` | main.js:17 | the live class sets become `AddClass` of the old ones |
| `Dom.Document.Remove` | main.js:104 | the live class sets become `RemoveClass` of the old ones |
| `Dom.Document.Toggle` | main.js:119 | the live class sets become `ToggleClass` of the old ones |
| `Dom.Document.SetWidth` | main.js:97 | only the given element's width changes, to the given percentage |
| `Reveal.StaggerSchedule` | main.js:18-22 | one timeout per child, in child order; child `i` is revealed with delay `i * 80` |
| `Reveal.StaggerDelaysOrdered` | main.js:19-22 | delays never decrease with the child index, and child 0 has delay 0 |
| `Reveal.RevealBatchClasses` | main.js:10-27 | after a batch an element has a class iff it had it before, or the class is `visible` and some entry reported the element intersecting; so nothing is removed and non-intersecting entries change nothing |
| `Reveal.RevealBatchNoStagger` | main.js:13-25 | a batch with no intersecting stagger container schedules no timeout |
| `Reveal.RevealOneStagger` | main.js:15-22 | an intersecting stagger container (class `stagger` or attribute `data-stagger`) gets `visible` in the same step, and each child `i` gets a timeout with delay `i * 80` |
| `Reveal.RevealOne` | main.js:11-26 | the callback's work for one entry; no contract of its own, its properties are `RevealOneStagger` and, through `RevealBatch`, `RevealBatchClasses` |
| `Reveal.RevealBatch` | main.js:10-27 | the callback on a batch, in entry order; no contract of its own, its properties are `RevealBatchClasses`, `RevealBatchScheduled` and `RevealBatchNoStagger` |
| `Reveal.StaggerTimeouts` | main.js:15-22 | reference definition of what a batch schedules, judged against the classes before the batch; no contract of its own, its properties are `RevealBatchScheduled` and `StaggerTimeoutsOrigin` |
| `Reveal.RevealBatchScheduled` | main.js:10-27 | the timeouts a batch schedules are exactly `StaggerTimeouts`: each intersecting stagger container's children, in entry order, child `i` with delay `i * 80` |
| `Reveal.StaggerTimeoutsOrigin` | main.js:15-22 | every scheduled timeout is child `i` of an intersecting stagger container of the batch, with delay `i * 80` |
| `Reveal.RevealEngine.OnEntries` | main.js:9-28 | the class sets and the newly scheduled timeouts are those of `RevealBatch` on the old classes |
| `Reveal.RevealEngine.HandleEntry` | main.js:11-26 | the class sets and the newly scheduled timeouts are those of `RevealOne` on the old classes |
| `Reveal.RevealEngine.ScheduleChildren` | main.js:18-22 | appends exactly `StaggerSchedule` of the children to the pending timeouts |
| `Reveal.RevealEngine.FireTimeout` | main.js:21 | a pending timeout fires: its child gains `visible`, and that timeout leaves the pending list |
| `HeroFallback.HideOverlays` | main.js:46-47 | the overlay, and the welcome if present, gain `hidden`; nothing else changes |
| `HeroFallback.ShowOverlays` | main.js:61-62 | the overlay, and the welcome if present, lose `hidden`; nothing else changes |
| `HeroFallback.HeadingEntryEffect` | main.js:44-63 | intersecting and `visible`: both overlays hidden. Not intersecting: both shown. Intersecting without `visible`: classes unchanged and one more watcher connected. No watcher is ever disconnected here |
| `HeroFallback.HeadingBatchEffect` | main.js:40-65 | over a batch, only the overlays' `hidden` changes and watchers are only added. A final non-intersecting entry shows the overlays; a final intersecting entry hides them if the heading is `visible` |
| `HeroFallback.SeveralWatchers` | main.js:48-58 | two intersecting entries before `visible` leave two watchers connected at once |
| `HeroFallback.ClassChangeOneShot` | main.js:50-57 | without `visible` a notification changes nothing, and a notification to a disconnected watcher changes nothing. The first one with `visible` hides both overlays and disconnects that watcher only; the next notification to it changes nothing |
| `HeroFallback.DisconnectedStaysInert` | main.js:54 | a disconnected watcher stays disconnected after any heading batch, any notification and the start-up check, so every later notification to it changes nothing |
| `HeroFallback.NoRehideAfterDisconnect` | main.js:50-62 | after a watcher has hidden the overlays and disconnected, the heading leaving the viewport shows them, and a later notification to that watcher leaves them shown even though the heading is still `visible` |
| `HeroFallback.StartupCheckEffect` | main.js:71-88 | only `top < innerHeight` is tested. Otherwise nothing happens. If it holds, the check hides at once when the heading is `visible`, and connects a watcher when it is not |
| `HeroFallback.HeadingBatchKeepsRevealed` | main.js:44-63 | the heading observer keeps "an overlay is hidden only while the heading is `visible`" |
| `HeroFallback.ClassChangeKeepsRevealed` | main.js:50-56 | a watcher notification keeps that property |
| `HeroFallback.StartupCheckKeepsRevealed` | main.js:72-86 | the start-up check keeps that property |
| `HeroFallback.RevealKeepsRevealed` | main.js:13-26 | the reveal observer keeps that property |
| `HeroFallback.FireTimeoutKeepsRevealed` | main.js:21 | a stagger timeout firing keeps that property |
| `HeroFallback.HeaderKeepsRevealed` | main.js:102-105 | the header update keeps that property |
| `HeroFallback.NavKeepsRevealed` | main.js:111-121 | the navigation observer keeps that property |
| `HeroFallback.HideOrWatch` | main.js:45-58 | the branch shared by the observer and the start-up check; no contract of its own, its properties are `HeadingEntryEffect` and `StartupCheckEffect` |
| `HeroFallback.HeadingEntry` | main.js:44-63 | one entry of the heading observer; no contract of its own, its properties are `HeadingEntryEffect` |
| `HeroFallback.HeadingBatch` | main.js:40-65 | the heading observer on a batch, in entry order; no contract of its own, its properties are `HeadingBatchEffect`, `SeveralWatchers` and `HeadingBatchKeepsRevealed` |
| `HeroFallback.ClassChange` | main.js:50-56 | a notification to one watcher (the same code as main.js:78-84); no contract of its own, its properties are `ClassChangeOneShot`, `DisconnectedStaysInert` and `ClassChangeKeepsRevealed` |
| `HeroFallback.StartupCheck` | main.js:71-88 | the start-up check; no contract of its own, its properties are `StartupCheckEffect` and `StartupCheckKeepsRevealed` |
| `HeroFallback.HiddenWhileOutOfView` | main.js:48-63 | counterexample: enter the viewport without `visible`, leave it, then gain `visible`. The old watcher hides the overlay although the heading is out of view |
| `HeroFallback.HeroSync.HideOverlaysNow` | main.js:46-47 | the live classes become `HideOverlays` of the old ones |
| `HeroFallback.HeroSync.ShowOverlaysNow` | main.js:61-62 | the live classes become `ShowOverlays` of the old ones |
| `HeroFallback.HeroSync.HideOrWatchNow` | main.js:45-58 | hides if the heading is `visible`, otherwise appends a connected watcher |
| `HeroFallback.HeroSync.OnEntries` | main.js:40-65 | classes and watchers become `HeadingBatch` of the old state |
| `HeroFallback.HeroSync.OnClassChange` | main.js:50-56 | classes and watchers become `ClassChange` of the old state for that watcher |
| `HeroFallback.HeroSync.RunStartupCheck` | main.js:71-88 | classes and watchers become `StartupCheck` of the old state |
| `ScrollMetrics.ScrollTop` | main.js:95 | a non-zero `scrollY` is used as is; when `pageYOffset` equals `scrollY` (as in browsers), the result is `scrollY` |
| `ScrollMetrics.Progress` | main.js:94-96 | exactly 0 when the scrollable height is not positive; otherwise `pct * height == scrollTop * 100` |
| `ScrollMetrics.ProgressExample` | main.js:94-96 | 600 / (2000 - 800) gives 50; an unscrollable page gives 0; 1500 gives 125 (no clamp) |
| `ScrollMetrics.ProgressInRange` | main.js:94-96 | for a positive scrollable height, `0 <= pct <= 100` iff `0 <= scrollTop <= height` |
| `ScrollMetrics.ProgressMonotone` | main.js:96 | a larger scroll offset never gives a smaller percentage |
| `ScrollMetrics.ProgressWidths` | main.js:93-98 | with a bar, only the bar's width changes, to the progress percentage; without one nothing changes |
| `ScrollMetrics.HeaderClasses` | main.js:102-105 | with a header, `scrolled` is present iff `scrollY > 18`; no other class changes; without a header nothing changes |
| `ScrollMetrics.HeaderThresholdExample` | main.js:104 | 18 gives no `scrolled`; 19 gives `scrolled` |
| `ScrollMetrics.GuardKeepsCoalesced` | main.js:135-146 | a scroll event and a frame callback keep "ticking iff exactly one frame pending". A scroll event while ticking schedules nothing |
| `ScrollMetrics.BurstRequestsOneFrame` | main.js:136-146 | any burst of n >= 1 scroll events leaves exactly one frame pending, and after it runs the guard is idle: one recomputation per burst |
| `ScrollMetrics.OnScroll` | main.js:136-146 | a scroll event on the guard; no contract of its own, its properties are `GuardKeepsCoalesced` and `BurstRequestsOneFrame` |
| `ScrollMetrics.FrameDone` | main.js:138-143 | the frame callback clears `ticking`; no contract of its own, its properties are `GuardKeepsCoalesced` and `BurstRequestsOneFrame` |
| `ScrollMetrics.ScrollEngine.Refresh` | main.js:149-150 | the width becomes `ProgressWidths` and the classes become `HeaderClasses` of the old ones |
| `ScrollMetrics.ScrollEngine.OnScrollEvent` | main.js:136-146 | the guard becomes `OnScroll` of the old guard |
| `ScrollMetrics.ScrollEngine.RunFrame` | main.js:138-143 | runs both updates, then clears `ticking`; the guard becomes `FrameDone` of the old guard |
| `NavTracker.MarkActiveExact` | main.js:116 | after marking for `id`, a link is `active` iff its `href` is `'#' + id`; nothing else changes |
| `NavTracker.AtMostOneActive` | main.js:116 | with distinct `href`s, at most one link is `active` after marking |
| `NavTracker.LastIntersectingWins` | main.js:111-121 | the last intersecting entry of a batch decides which links are `active` |
| `NavTracker.InViewFollowsEntry` | main.js:119 | a section's `in-view` equals the `isIntersecting` of its last entry in the batch |
| `NavTracker.MarkActiveFrame` | main.js:116 | marking links changes only `active`; in particular no `in-view` changes |
| `NavTracker.NavBatchFrame` | main.js:111-121 | a batch changes only `active` and `in-view`; a batch with no intersecting entry leaves every `active` as it was |
| `NavTracker.MarkActive` | main.js:116 | `navLinks.forEach(a => a.classList.toggle('active', ...))`; no contract of its own, its properties are `MarkActiveExact`, `AtMostOneActive` and `MarkActiveFrame` |
| `NavTracker.NavStep` | main.js:113-119 | the callback's work for one entry; no contract of its own, its properties are stated through `NavBatch` |
| `NavTracker.NavBatch` | main.js:111-121 | the callback on a batch, in entry order; no contract of its own, its properties are `LastIntersectingWins`, `InViewFollowsEntry` and `NavBatchFrame` |
| `NavTracker.Tracker.OnEntries` | main.js:111-121 | the class sets become `NavBatch` of the old ones |

## Left out

- Selecting elements and registering observers (main.js:5-6, 30-33, 36-38, 66, 92, 101, 108-109, 123, 126, 154). The model starts from the element identifiers those queries would return. It also assumes each link appears once among the links.
- When the heading or the overlay is missing, no synchroniser is built (main.js:39). That case is the absence of a `HeroSync` object, not a separate branch.
- Intersection geometry: thresholds `0.12` and `0`, the root margin `-35% 0px -45% 0px`, and `getBoundingClientRect`. `isIntersecting` is a boolean input, and the heading's `top` is a number input.
- Real time: the 80 ms and 50 ms delays, `requestAnimationFrame`, and the delivery order of observer callbacks. A scheduled timeout, a notification or a frame is an event the environment may deliver in any order. The model records the delays but does not order firing by them.
- The parallax update (main.js:127-132, 141, 151). It only writes a CSS string computed from `scrollY * 0.12`.
- JavaScript floating-point rounding, and turning the percentage into the string `pct + '%'`. Widths are exact reals.
- `ScrollMetrics.ScrollTop`: a `NaN` `scrollY` is not modelled (reals have no `NaN`).
- The empty click handlers on navigation links (main.js:157-162).
- The social-card embed loader `handleSocial` and its listeners (main.js:167-210). It creates iframes and opens windows. Its only logic is a `data-loaded` guard.
