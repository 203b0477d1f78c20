# Bravato Coffee: a verified model of the hero frame player and the navigation

This project models two scripts of the Bravato Coffee site in Dafny.

**The hero frame player.** This is the `ScrollAnimation` class in `js/scroll-animation.js`.
- It builds a table of 163 frame images (frames 30..192, named `/assets/ezgif-frame-NNN.jpg`).
- It counts the frames that load and shows the percentage on a loading bar.
- When every frame has loaded, it runs a ready step: it hides the overlay, draws frame 0 and shows the scroll hint.
- It throttles scroll events to one update per animation frame.
- It maps the scroll offset inside the hero container to a progress value in [0, 1], and the progress to a frame index.
- It draws the frame "cover"-fitted on a canvas whose backing store is the viewport scaled by the device pixel ratio.

**The navigation.** This is `js/navigation.js`.
- The current page is the pathname's last segment, or `index.html`.
- The nav links whose href is that page are marked `active`.
- The mobile menu is a pair of `active` classes. The toggle flips them, and a link or outside click clears them.
- The nav bar carries `scrolled` past 50 pixels.

Arithmetic is on exact `real`s with `.Floor`, not IEEE doubles. DOM writes are recorded as values: what the canvas shows, how many frames were painted, and what was last written to each optional element.

Files:
- `wrappers.dfy`: `Option`.
- `real_arith.dfy`: small one-step facts about real multiplication, division and floor, used by the geometry proofs.
- `frame_naming.dfy`: `String(i).padStart(3, '0')` and the asset path, with the decimal round trip.
- `scroll_mapping.dfy`: progress clamp, frame index, loading percentage.
- `viewport.dfy`: the device-pixel-ratio fallback, backing-store size, logical size and the cover fit.
- `frame_loading.dfy`: the load callbacks and the outcome of `Promise.all` as a pure state machine. Also the scroll throttle's state.
- `frame_player.dfy`: the `ScrollAnimation` class. Its methods are proved against the pure functions through the view functions `Loading()`, `Throttling()` and `PlaybackState()`.
- `navigation.dfy`: page name, link marking, the `MobileMenu` and `NavBar` classes.

Where the code and its documented intent disagree, the model follows the code:
- **`drawFrame` is a cover fit, not a contain fit.** The image always covers the canvas, the offsets are at most 0, and one side is cropped when the aspect ratios differ (`Viewport.CoverFitCrops`).
- **A single failed frame means the ready step never runs.** `Promise.all` rejects, and nothing else reacts, so the loading overlay stays (`FrameLoading.FailureBlocksReady`).
- **Scrolling onto a frame that failed to load blanks the canvas.** A broken image reports `complete`, so drawFrame clears the canvas. Its width and height read 0, so the drawing rectangle is NaN and drawImage returns without drawing. The progress bar, the hint and the throttle carry on as for any other frame (`FramePlayer.Update`, `FramePlayer.ScrollAnimation.AnimationFrame`).
- **`imagesLoaded` counts successful loads only.** A failed frame does not advance the counter, so the loading bar stops short of 100% (`FrameLoading.RunConsistent`).

## Model

| member | source | states |
|---|---|---|
| FrameNaming.DecimalString | js/scroll-animation.js:62 | `String(n)` is a non-empty string of digits with no leading '0' (except for 0 itself) |
| FrameNaming.PadStart | js/scroll-animation.js:62 | `padStart(width, fill)` returns s unchanged when it is already long enough, and otherwise pads it on the left with `fill` up to `width` |
| FrameNaming.FrameName | js/scroll-animation.js:62 | `String(i).padStart(3, '0')` (FrameNameSpec states its properties) |
| FrameNaming.FramePath | js/scroll-animation.js:63 | the URL template around the name (FramePathShape states its shape) |
| FrameNaming.FrameNameSpec | js/scroll-animation.js:62 | the padded name is all digits; it is at least 3 characters, exactly 3 iff the frame is below 1000; it parses back to the frame number |
| FrameNaming.FrameNameInjective | js/scroll-animation.js:62 | distinct frames get distinct names |
| FrameNaming.FramePathShape | js/scroll-animation.js:62-63 | for a frame below 1000 the path is `/assets/ezgif-frame-`, then the 3-character name, then `.jpg` |
| FrameNaming.FramePathInjective | js/scroll-animation.js:62-63 | distinct frames are requested from distinct URLs |
| FrameNaming.FirstAndLastNames | js/scroll-animation.js:60-63 | frame 30 is named "030", frame 192 "192"; the first path is `/assets/ezgif-frame-030.jpg` |
| FrameNaming.DecimalLength | js/scroll-animation.js:62 | `String(n)` has at most 3 digits iff n < 1000 |
| FrameNaming.ParseDecimalString | js/scroll-animation.js:62 | `String(n)` reads back as n |
| FrameNaming.ParseLeadingZeros | js/scroll-animation.js:62 | the '0' padding added by padStart does not change the value read back |
| ScrollMapping.Clamp01 | js/scroll-animation.js:147 | `Math.max(0, Math.min(1, x))` lies in [0,1]; it is 0 at or below 0, 1 at or above 1, and x in between |
| ScrollMapping.Clamp01Monotone | js/scroll-animation.js:147 | the clamp never reverses the order of its arguments |
| ScrollMapping.Progress | js/scroll-animation.js:142-147 | for a container of positive height the progress is in [0,1]; exactly 0 at or above the container's top; exactly 1 at or past its end; in between, progress × height is the offset into the container |
| ScrollMapping.FrameIndex | js/scroll-animation.js:150 | the floored index lies in [0, frameCount−1]; progress 0 gives frame 0 and progress 1 the last frame |
| ScrollMapping.LoadingPercent | js/scroll-animation.js:91 | the percentage is the value with percentage × frameCount = 100 × loaded; it lies in [0,100], is 0 iff nothing loaded and 100 iff every frame loaded |
| ScrollMapping.ProgressMonotone | js/scroll-animation.js:142-147 | scrolling further down never lowers the progress |
| ScrollMapping.FrameIndexMonotone | js/scroll-animation.js:150 | a larger progress never selects an earlier frame |
| ScrollMapping.FrameIndexOfGridPoint | js/scroll-animation.js:150 | frame i's progress value i/(frameCount−1) maps back to frame i |
| ScrollMapping.FrameIndexInterval | js/scroll-animation.js:150 | frame i (below the last) is selected exactly for progress in [i/(n−1), (i+1)/(n−1)) |
| ScrollMapping.LoadingPercentMonotone | js/scroll-animation.js:91 | more frames loaded never lowers the percentage |
| ScrollMapping.BarVisible | js/scroll-animation.js:210 | the `visible` condition 0 < progress < 1 |
| ScrollMapping.HintHides | js/scroll-animation.js:162 | the hint condition progress > 0.05 |
| ScrollMapping.HalfwayScenario | js/scroll-animation.js:142-150 | 500 px into a 1000 px container gives progress 0.5 and, with 163 frames, frame 81 |
| ScrollMapping.AboveContainerScenario | js/scroll-animation.js:142-150 | above the container the progress is 0 and the frame 0; the hint does not hide and the bar is not visible |
| Viewport.EffectiveRatio | js/scroll-animation.js:38 | `devicePixelRatio \|\| 1`: positive; the reported ratio whenever that is non-zero, and 1 when it is 0 |
| Viewport.BackingSize | js/scroll-animation.js:39-40 | the canvas size is the viewport × ratio, truncated to a whole pixel count |
| Viewport.LogicalSize | js/scroll-animation.js:179-180 | the logical size times the ratio is the backing size, and it is positive iff the backing size is |
| Viewport.LogicalSizeBounds | js/scroll-animation.js:179-180 | the logical size `canvas.width / dpr` is at most the viewport and less than one physical pixel short of it; it equals the viewport when viewport × ratio is whole |
| Viewport.WholeRatioIsExact | js/scroll-animation.js:179-180 | with ratio 1, 2, 3, … the logical size is exactly the viewport |
| Viewport.FitToHeight | js/scroll-animation.js:187-192 | fitting a relatively wider image to the height keeps its aspect ratio and overflows the width |
| Viewport.FitToWidth | js/scroll-animation.js:193-199 | fitting a relatively taller image to the width keeps its aspect ratio and covers the height |
| Viewport.CoverFit | js/scroll-animation.js:182-199 | the drawn rectangle keeps the image's aspect ratio; it covers the canvas on both axes; it matches the canvas on at least one side; it is centred, with offsets (canvas − drawn)/2 ≤ 0 |
| Viewport.CoverScale | js/scroll-animation.js:182-199 | the reference scale max(cw/iw, ch/ih) covers the canvas and touches it on one side |
| Viewport.TightCoverUnique | js/scroll-animation.js:182-199 | only one uniform scale covers the canvas and touches it on one side |
| Viewport.CoverScaleIsLeast | js/scroll-animation.js:182-199 | every uniform scale that covers the canvas is at least the reference scale |
| Viewport.CoverRectIsScaled | js/scroll-animation.js:182-199 | a rectangle with drawFrame's properties is the image uniformly scaled by width/iw and centred |
| Viewport.CoverFitIsSmallestCover | js/scroll-animation.js:182-199 | drawFrame's rectangle is exactly the image at the smallest covering scale, centred |
| Viewport.CoverFitCrops | js/scroll-animation.js:187-199 | when the aspect ratios differ, the image overflows the canvas on one side, so there are no letterbox bars |
| FrameLoading.CountLoaded | js/scroll-animation.js:67-68 | the number of loaded entries never exceeds the table length |
| FrameLoading.Image.Decoded | js/scroll-animation.js:67-71 | the entry's onload has fired and its natural size is known |
| FrameLoading.Image.Complete | js/scroll-animation.js:173 | `img.complete`: the request has settled, whether it decoded or broke |
| FrameLoading.CountLoadedAll | js/scroll-animation.js:83-84 | the count reaches the table length iff every entry has loaded |
| FrameLoading.CountLoadedNone | js/scroll-animation.js:55-80 | with no entry loaded the count is 0 |
| FrameLoading.CountLoadedUpdate | js/scroll-animation.js:67-75 | replacing one entry changes the count by exactly what that entry contributes |
| FrameLoading.Fresh | js/scroll-animation.js:55-80 | after preloading, with every request pending, the loader state is consistent |
| FrameLoading.Step | js/scroll-animation.js:66-83 | one callback keeps the table length and every src and changes only its own entry: onload stores the decoded size (`Loaded(width, height)`), onerror marks it `Failed` |
| FrameLoading.StepConsistent | js/scroll-animation.js:66-87 | one callback keeps the counter equal to the loaded entries; only onload increments it; the outcome is Ready iff all loaded and Rejected iff some entry failed; an error or an earlier rejection leaves it Rejected |
| FrameLoading.RunConsistent | js/scroll-animation.js:67-75 | over any series of callbacks the counter grows by exactly the number of successful loads; it never decreases and never passes the frame count |
| FrameLoading.RejectedStays | js/scroll-animation.js:83-87 | once rejected, the Promise.all stays rejected |
| FrameLoading.FailureBlocksReady | js/scroll-animation.js:72-87 | one failed frame anywhere in the run means the outcome is Rejected, so onImagesLoaded never runs |
| FrameLoading.ReadyIffAllLoaded | js/scroll-animation.js:83-84 | in a consistent state the player is ready iff every frame has loaded |
| FrameLoading.AllLoadsReady | js/scroll-animation.js:67-84 | one successful load per frame makes the player ready with the counter at the frame count |
| FrameLoading.LoadEventsCounted | js/scroll-animation.js:67-68 | a run of successful loads counts every one of them |
| FrameLoading.OnScroll | js/scroll-animation.js:126-132 | after a scroll `ticking` is set; an update is queued only if none was pending |
| FrameLoading.OnAnimationFrame | js/scroll-animation.js:127-130 | the callback removes its queued update; `ticking` ends cleared unless the update threw, since the clearing statement follows the update |
| FrameLoading.AtMostOnePending | js/scroll-animation.js:121-133 | over any interleaving of scrolls and callbacks, thrown or not, at most one update is pending, and only while `ticking` is set |
| FrameLoading.BurstQueuesOne | js/scroll-animation.js:121-133 | any burst of scrolls from a throttle in step (queued exactly while ticking) ends with exactly one pending update |
| FrameLoading.NoThrowKeepsStep | js/scroll-animation.js:121-133 | while no update throws, an update is queued exactly while `ticking` is set |
| FrameLoading.ThrowSticks | js/scroll-animation.js:127-130 | an exception escaping updateFrame would leave `ticking` set with nothing queued, since the clearing statement follows the update |
| FrameLoading.StuckStays | js/scroll-animation.js:123-133 | from that stuck state no later scroll queues an update, so the frame stops following the scroll |
| FramePlayer.CanvasFor | js/scroll-animation.js:37-43 | the canvas is usable; its CSS size is the viewport; its ratio is the reported ratio, or 1 when that is 0; its logical size is within one physical pixel below the viewport |
| FramePlayer.Canvas.LogicalWidth | js/scroll-animation.js:179 | `canvas.width / dpr` is positive for a canvas of positive width |
| FramePlayer.Canvas.LogicalHeight | js/scroll-animation.js:180 | `canvas.height / dpr` is positive for a canvas of positive height |
| FramePlayer.PlanDraw | js/scroll-animation.js:170-202 | a frame is painted iff the entry exists and has decoded; the rectangle is CoverFit of the image's natural size on the logical canvas: aspect ratio kept, canvas covered, one side equal to the canvas side, centred, offsets ≤ 0 |
| FramePlayer.DrawBlanks | js/scroll-animation.js:171-202 | the case where drawFrame clears the canvas but draws nothing: an existing entry whose request is broken (`complete`, but a NaN rectangle from its zero size) |
| FramePlayer.AfterDraw | js/scroll-animation.js:170-203 | a decoded frame is painted and counted; a broken one leaves the canvas cleared and unpainted; a missing or pending one changes nothing; the frame index and UI are untouched |
| FramePlayer.AfterScrollProgress | js/scroll-animation.js:205-216 | when the bar exists its width is progress × 100 and `visible` iff 0 < progress < 1; without it nothing changes; the other elements are untouched |
| FramePlayer.AfterHint | js/scroll-animation.js:161-167 | past the 0.05 threshold the hint, when present, is hidden |
| FramePlayer.AfterLoadingProgress | js/scroll-animation.js:90-96 | when the loading bar exists its width is a percentage in [0,100], and 100 iff every frame loaded; nothing else changes |
| FramePlayer.ReadyStep | js/scroll-animation.js:98-118 | with every frame loaded, frame 0 is drawn; the overlay is hidden when present; the hint shows when present; the current frame and the bars are unchanged |
| FramePlayer.Update | js/scroll-animation.js:138-216 | with no container, or a zero-height one, nothing changes. Otherwise the current frame becomes the floored index, and the hint is hidden iff the element exists and progress > 0.05. An unchanged index draws nothing and leaves the bar. A new index paints the frame when decoded, blanks the canvas when it is broken, and, when the bar exists, sets its width to progress × 100 and `visible` iff 0 < progress < 1 |
| FramePlayer.UpdateIdempotent | js/scroll-animation.js:153-167 | repeating an update at the same scroll position changes nothing |
| FramePlayer.ZeroHeightRetainsFrame | js/scroll-animation.js:139-147 | with a zero-height container no number of updates changes anything |
| FramePlayer.UpdateAll | js/scroll-animation.js:150 | the current frame stays a valid index over any series of updates |
| FramePlayer.FrameSources | js/scroll-animation.js:60-63 | the 163 URLs `FramePath(30 + k)` in ascending order (FrameTableShape states their properties) |
| FramePlayer.IsFrameTable | js/scroll-animation.js:60-79 | the table as preloadImages builds it: entry k requests frame 30 + k |
| FramePlayer.FrameTableShape | js/scroll-animation.js:60-79 | the table has 163 entries; entry k requests frame 30 + k; all URLs are distinct |
| FramePlayer.ScrollAnimation.constructor | js/scroll-animation.js:7-33 | the canvas is sized to the viewport; the table holds every frame pending; nothing is counted, drawn or ticking; the loading bar shows 0% when present |
| FramePlayer.ScrollAnimation.PreloadImages | js/scroll-animation.js:55-80 | the loop pushes one pending image per frame 30..192, in ascending order, with the padded path |
| FramePlayer.ScrollAnimation.UpdateLoadingProgress | js/scroll-animation.js:90-96 | the UI becomes AfterLoadingProgress of the old UI |
| FramePlayer.ScrollAnimation.ImageLoaded | js/scroll-animation.js:67-118 | the loader state becomes Step of the old one; ready iff every frame loaded; the ready step runs exactly when the outcome turns Ready; the canvas and throttle are untouched; the invariant is kept |
| FramePlayer.ScrollAnimation.ImageFailed | js/scroll-animation.js:72-87 | the entry fails; the counter and the playback are untouched; the outcome is Rejected; the invariant is kept |
| FramePlayer.ScrollAnimation.OnImagesLoaded | js/scroll-animation.js:98-118 | called once every frame has loaded, the playback becomes ReadyStep of the old one |
| FramePlayer.ScrollAnimation.HandleScroll | js/scroll-animation.js:123-133 | `lastScrollY` is recorded; the throttle becomes OnScroll of the old one; at most one update is queued |
| FramePlayer.ScrollAnimation.AnimationFrame | js/scroll-animation.js:127-130 | runs Update on the recorded scroll position; the throttle becomes OnAnimationFrame of the old one with an update that returned normally, so `ticking` is cleared and nothing stays queued |
| FramePlayer.ScrollAnimation.UpdateFrame | js/scroll-animation.js:138-168 | the playback becomes Update of the old one at `lastScrollY` |
| FramePlayer.ScrollAnimation.DrawFrame | js/scroll-animation.js:170-203 | the playback becomes AfterDraw of the old one; a broken image leaves the canvas cleared with nothing painted |
| FramePlayer.ScrollAnimation.UpdateScrollProgress | js/scroll-animation.js:205-216 | when the bar exists its width is progress × 100 and it is `visible` iff 0 < progress < 1 |
| FramePlayer.ScrollAnimation.UpdateCanvasSize | js/scroll-animation.js:37-48 | the canvas is resized and blank; the current frame is painted again iff it has decoded |
| Navigation.Split | js/navigation.js:14 | `split('/')` always yields at least one part |
| Navigation.SplitLast | js/navigation.js:14 | the last part is '/'-free and ends the string; it is the whole string when there is one part and follows a '/' otherwise |
| Navigation.LastSegment | js/navigation.js:14 | `pop()` gives the text after the last '/', or the whole string |
| Navigation.LastSegmentUnique | js/navigation.js:14 | those properties determine the segment: it is the longest '/'-free suffix |
| Navigation.CurrentPageSpec | js/navigation.js:14 | the current page is never empty; an empty path or one ending in '/' gives `index.html`; otherwise it is the last segment |
| Navigation.CurrentPageExamples | js/navigation.js:14 | `/menu.html` gives `menu.html`; `/` and the empty path give `index.html` |
| Navigation.CurrentPage | js/navigation.js:14 | `pathname.split('/').pop() \|\| 'index.html'` (CurrentPageSpec states its properties) |
| Navigation.LinkMatches | js/navigation.js:20 | the link test with both disjuncts, as written (SecondDisjunctIsDead reduces it) |
| Navigation.SecondDisjunctIsDead | js/navigation.js:14-20 | a link matches iff its href equals the current page; the `currentPage === ''` disjunct never decides |
| Navigation.Toggle | js/navigation.js:32-33 | `classList.toggle` flips just that class |
| Navigation.InitNavigation | js/navigation.js:12-24 | a link gains `active` iff its href is the current page; no class is removed and no other class changes |
| Navigation.MarkActiveLinks | js/navigation.js:18-23 | the loop adds `active` to exactly the matching links and leaves the rest as they were |
| Navigation.ClicksKeepSync | js/navigation.js:31-50 | flags that start equal stay equal over any clicks |
| Navigation.ClickLaws | js/navigation.js:31-50 | two toggles restore the flags; a toggle flips the menu; link and outside clicks close it, idempotently; a click inside the menu changes nothing |
| Navigation.TogglesParity | js/navigation.js:31-34 | from equal flags, the menu is open after n toggles iff it started open xor n is odd |
| Navigation.Click | js/navigation.js:31-50 | one click through every handler it reaches: the toggle flips both flags, a menu link or an outside click clears both, a click elsewhere inside the menu changes nothing (ClickLaws states these) |
| Navigation.MobileMenu.OnToggleClick | js/navigation.js:31-34 | both elements' `active` class flips and nothing else changes |
| Navigation.MobileMenu.Close | js/navigation.js:39-50 | both `active` classes are removed and nothing else changes |
| Navigation.MobileMenu.OnDocumentClick | js/navigation.js:46-51 | a click outside both elements closes the menu; a click inside either changes nothing |
| Navigation.MobileMenu.Dispatch | js/navigation.js:31-51 | a click through every handler it reaches has Click's effect on the flags and changes no other class |
| Navigation.InitMobileMenu | js/navigation.js:26-53 | the handlers exist iff both the toggle and the links container exist |
| Navigation.AfterScroll | js/navigation.js:62-69 | the nav has `scrolled` iff scrollY > 50; no other class changes |
| Navigation.LastScrollDecides | js/navigation.js:61-72 | after any series of scroll events, `scrolled` is decided by the last position alone |
| Navigation.NavBar.OnScroll | js/navigation.js:61-72 | the classes become AfterScroll of the old ones; `lastScroll` records scrollY |
| Navigation.InitScrollEffects | js/navigation.js:55-74 | the listener exists iff the page has a nav element; `lastScroll` starts at 0 |

## Left out

- Drawing itself (`clearRect`, `drawImage`, `ctx.scale`), style and class writes, `console` and `setTimeout` are not modelled as effects. The model records what was drawn, how many frames were painted, and what was last written to each optional element. The 500 ms `display = 'none'` step of the overlay is not modelled.
- Event-listener registration, `window.scrollY`, `innerWidth`/`innerHeight`, `devicePixelRatio` and the container's `offsetTop`/`offsetHeight` are parameters of the methods.
- Network loading and the asynchronous `Promise.all`: the load and error callbacks are a series of events applied one at a time. Each image settles at most once; this host guarantee is the `Deliverable` precondition.
- Floating-point behaviour is not modelled; arithmetic is on exact reals.
- FramePlayer.Update: with a zero-height container the source divides by zero (the progress becomes 0, 1 or NaN through ±Infinity or NaN). The model treats that case as no update.
- FramePlayer.Drawable: a viewport whose scaled backing store is 0 pixels wide or high is outside the model. A zero height gives an Infinity aspect ratio, zero on both sides gives NaN, and a zero width gives aspect 0 and a finite rectangle on an empty bitmap. Nothing is visible in any of these cases.
- FramePlayer.DrawBlanks: the model does not compute the NaN rectangle. It records the outcome the HTML Living Standard gives it: drawImage returns at its first step when an argument is NaN, before the step that would refuse a broken image. An engine that checked the image first would throw there instead; that engine-specific behaviour is not modelled.
- FrameLoading.ThrowSticks, FrameLoading.StuckStays: no operation of the modelled player throws, so the class's throttle always keeps `FrameLoading.InStep`. These lemmas state what the callback at lines 127-130 would do if an exception escaped updateFrame.
- FramePlayer.PlanDraw: the pixel ratio is taken from the canvas. The source re-reads `devicePixelRatio` in `drawFrame` and assumes it has not changed since the last resize.
- Navigation.InitNavigation, Navigation.MarkActiveLinks, Navigation.MobileMenu.OnToggleClick: the links, and the toggle and panel, are distinct elements (the DOM guarantees distinct results from one query and from two selectors for different elements).
- Navigation.MobileMenu.Dispatch: a click target is one of the four kinds `ClickTarget` lists. DOM event propagation and `Node.contains` are left as that classification.
- The `isAnimating` field of `ScrollAnimation` is never read or written after construction, so it is not modelled.
- The scroll hint's opacity is set to `0.7` only by the ready step. After it, scrolling back above the threshold never shows the hint again; the model keeps that behaviour of the source (`FramePlayer.Update`).
- `js/page-animations.js` (IntersectionObserver glue and injected CSS) and `vite.config.js` (build configuration) are not part of this model.
