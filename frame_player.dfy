/**
 * The hero frame player (class ScrollAnimation): it builds the frame table,
 * counts loaded frames, runs the ready step when every frame has loaded,
 * throttles scroll events to one update per animation frame, maps the scroll
 * offset to a frame and draws that frame cover-fitted on the canvas.
 * DOM writes are recorded as values (what the canvas shows, what was last
 * written to each optional element).
 */
module FramePlayer {
  import opened Wrappers
  import opened FrameNaming
  import opened ScrollMapping
  import opened Viewport
  import opened FrameLoading

  /** Which optional elements the page has (each is looked up by selector). */
  datatype Page = Page(
    container: bool,       // .hero-scroll-container
    loadingBar: bool,      // .loading-progress
    loadingOverlay: bool,  // .hero-loading
    scrollHint: bool,      // .scroll-indicator
    scrollBar: bool)       // .scroll-progress

  /** The opacity last written to the scroll hint: none yet, '0.7' or '0'. */
  datatype HintOpacity = Untouched | Shown | Hidden

  /** What the player last wrote to the optional elements (None: never written). */
  datatype Ui = Ui(
    loadingWidth: Option<real>,  // width of the loading bar, in percent
    overlayHidden: bool,         // the loading overlay has the class 'hidden'
    hint: HintOpacity,
    barWidth: Option<real>,      // width of the scroll-progress bar, in percent
    barVisible: Option<bool>)    // the scroll-progress bar has the class 'visible'

  /** The canvas: backing-store size, CSS size, and the scale set on the 2D context. */
  datatype Canvas = Canvas(width: nat, height: nat, styleWidth: nat, styleHeight: nat, ratio: real) {
    predicate Usable() {
      width > 0 && height > 0 && ratio > 0.0
    }

    function LogicalWidth(): (w: real)
      requires ratio > 0.0
      ensures width > 0 ==> w > 0.0
    {
      LogicalSize(width, ratio)
    }

    function LogicalHeight(): (h: real)
      requires ratio > 0.0
      ensures height > 0 ==> h > 0.0
    {
      LogicalSize(height, ratio)
    }
  }

  /** A viewport whose scaled backing store is at least one pixel each way. */
  predicate Drawable(innerWidth: nat, innerHeight: nat, reportedRatio: real) {
    reportedRatio >= 0.0 &&
    BackingSize(innerWidth, EffectiveRatio(reportedRatio)) > 0 &&
    BackingSize(innerHeight, EffectiveRatio(reportedRatio)) > 0
  }

  /**
   * updateCanvasSize: the backing store is the viewport times the pixel
   * ratio, the CSS size is the viewport, the context is scaled by the ratio
   * (assigning the size resets the context, so the scale does not accumulate).
   * Drawing then works in a logical size within one physical pixel of the viewport.
   */
  function CanvasFor(innerWidth: nat, innerHeight: nat, reportedRatio: real): (c: Canvas)
    requires Drawable(innerWidth, innerHeight, reportedRatio)
    ensures c.Usable()
    ensures c.styleWidth == innerWidth && c.styleHeight == innerHeight
    ensures reportedRatio > 0.0 ==> c.ratio == reportedRatio
    ensures reportedRatio == 0.0 ==> c.ratio == 1.0
    ensures innerWidth as real - 1.0 / c.ratio < c.LogicalWidth() <= innerWidth as real
    ensures innerHeight as real - 1.0 / c.ratio < c.LogicalHeight() <= innerHeight as real
  {
    var ratio := EffectiveRatio(reportedRatio);
    LogicalSizeBounds(innerWidth, ratio);
    LogicalSizeBounds(innerHeight, ratio);
    Canvas(BackingSize(innerWidth, ratio), BackingSize(innerHeight, ratio), innerWidth, innerHeight, ratio)
  }

  /** One drawImage call: which frame, at which rectangle in logical coordinates. */
  datatype DrawCall = DrawCall(frame: nat, rect: Rect)

  /**
   * The picture drawFrame(k) paints: the decoded image cover-fitted to the
   * logical canvas (same aspect ratio, covering the whole canvas, one side
   * matching it, centred); nothing for a missing, pending or broken image.
   */
  function PlanDraw(images: seq<Image>, canvas: Canvas, k: nat): (d: Option<DrawCall>)
    requires canvas.Usable()
    ensures d.Some? <==> k < |images| && images[k].Decoded()
    ensures d.Some? ==> d.value.frame == k
    ensures d.Some? ==>
              d.value.rect == CoverFit(images[k].state.width as real, images[k].state.height as real,
                                       canvas.LogicalWidth(), canvas.LogicalHeight())
    ensures d.Some? ==>
              var r := d.value.rect;
              r.width * images[k].state.height as real == r.height * images[k].state.width as real &&
              r.x <= 0.0 && r.y <= 0.0 &&
              r.x + r.width >= canvas.LogicalWidth() && r.y + r.height >= canvas.LogicalHeight() &&
              (r.width == canvas.LogicalWidth() || r.height == canvas.LogicalHeight()) &&
              r.x + r.width / 2.0 == canvas.LogicalWidth() / 2.0 &&
              r.y + r.height / 2.0 == canvas.LogicalHeight() / 2.0
  {
    if k < |images| && images[k].Decoded() then
      var img := images[k].state;
      var r := CoverFit(img.width as real, img.height as real, canvas.LogicalWidth(), canvas.LogicalHeight());
      Some(DrawCall(k, r))
    else
      None
  }

  /**
   * drawFrame(k) on a broken image: `complete` is true, so the canvas is
   * cleared. A broken image's width and height read 0, so its aspect ratio
   * and the rectangle's height and y offset are NaN, and drawImage returns
   * at its first step (a NaN argument) without drawing and without throwing.
   */
  predicate DrawBlanks(images: seq<Image>, k: nat) {
    k < |images| && images[k].state.Failed?
  }

  /** The playback part of the player's state. */
  datatype Playback = Playback(currentFrame: nat, shown: Option<DrawCall>, drawCount: nat, ui: Ui)

  /** updateLoadingProgress: the loading bar, when present, shows the loaded percentage. */
  function AfterLoadingProgress(page: Page, loaded: nat, ui: Ui): (r: Ui)
    requires loaded <= FRAME_COUNT
    ensures page.loadingBar ==> r.loadingWidth == Some(LoadingPercent(loaded, FRAME_COUNT))
    ensures page.loadingBar ==> r.loadingWidth.Some? && 0.0 <= r.loadingWidth.value <= 100.0
    ensures page.loadingBar ==> (r.loadingWidth == Some(100.0) <==> loaded == FRAME_COUNT)
    ensures r == ui.(loadingWidth := r.loadingWidth)
    ensures !page.loadingBar ==> r == ui
  {
    if page.loadingBar then ui.(loadingWidth := Some(LoadingPercent(loaded, FRAME_COUNT))) else ui
  }

  /**
   * onImagesLoaded, which runs only once every frame has loaded: hide the
   * loading overlay, draw frame 0, show the scroll hint.
   */
  function ReadyStep(images: seq<Image>, canvas: Canvas, page: Page, s: Playback): (r: Playback)
    requires canvas.Usable()
    requires forall j :: 0 <= j < |images| ==> images[j].Decoded()
    ensures r.currentFrame == s.currentFrame
    ensures 0 < |images| ==>
              r.shown == PlanDraw(images, canvas, 0) && r.shown.Some? && r.drawCount == s.drawCount + 1
    ensures r.ui.overlayHidden == (s.ui.overlayHidden || page.loadingOverlay)
    ensures r.ui.hint == if page.scrollHint then Shown else s.ui.hint
    ensures r.ui.loadingWidth == s.ui.loadingWidth
    ensures r.ui.barWidth == s.ui.barWidth && r.ui.barVisible == s.ui.barVisible
  {
    var drawn := AfterDraw(images, canvas, 0, s);
    drawn.(ui := s.ui.(overlayHidden := s.ui.overlayHidden || page.loadingOverlay,
                       hint := if page.scrollHint then Shown else s.ui.hint))
  }

  /**
   * The effect of drawFrame(k) on the playback state: a decoded frame is
   * painted; a broken one leaves the canvas cleared and unpainted; a missing
   * or pending one changes nothing.
   */
  function AfterDraw(images: seq<Image>, canvas: Canvas, k: nat, s: Playback): (r: Playback)
    requires canvas.Usable()
    ensures r.currentFrame == s.currentFrame && r.ui == s.ui
    ensures PlanDraw(images, canvas, k).Some? ==>
              r.shown == PlanDraw(images, canvas, k) && r.drawCount == s.drawCount + 1
    ensures DrawBlanks(images, k) ==> r.shown == None && r.drawCount == s.drawCount
    ensures !(k < |images| && images[k].Complete()) ==> r == s
  {
    var d := PlanDraw(images, canvas, k);
    if d.Some? then s.(shown := d, drawCount := s.drawCount + 1)
    else if DrawBlanks(images, k) then s.(shown := None)
    else s
  }

  /** updateScrollProgress(progress): bar width and 'visible' class, when the bar exists. */
  function AfterScrollProgress(page: Page, progress: real, ui: Ui): (r: Ui)
    ensures page.scrollBar ==> r.barWidth == Some(progress * 100.0) && r.barVisible == Some(0.0 < progress < 1.0)
    ensures r.loadingWidth == ui.loadingWidth && r.overlayHidden == ui.overlayHidden && r.hint == ui.hint
    ensures !page.scrollBar ==> r == ui
  {
    if page.scrollBar then ui.(barWidth := Some(progress * 100.0), barVisible := Some(BarVisible(progress)))
    else ui
  }

  /** The end of updateFrame: past the threshold the hint, when present, is hidden. */
  function AfterHint(page: Page, progress: real, s: Playback): Playback {
    if page.scrollHint && HintHides(progress) then s.(ui := s.ui.(hint := Hidden)) else s
  }

  /**
   * updateFrame: with a container of positive height, compute the progress
   * and frame index; only a new index changes the current frame, draws and
   * updates the progress bar; past the threshold the hint is hidden.
   */
  function Update(images: seq<Image>, canvas: Canvas, page: Page,
                  scrollY: real, containerTop: int, containerHeight: nat, s: Playback): (r: Playback)
    requires canvas.Usable()
    requires s.currentFrame < FRAME_COUNT
    ensures r.currentFrame < FRAME_COUNT
    ensures !page.container || containerHeight == 0 ==> r == s
    ensures page.container && containerHeight > 0 ==>
              var p := Progress(scrollY, containerTop, containerHeight);
              var i := FrameIndex(p, FRAME_COUNT);
              r.ui.loadingWidth == s.ui.loadingWidth && r.ui.overlayHidden == s.ui.overlayHidden &&
              r.ui.hint == (if page.scrollHint && HintHides(p) then Hidden else s.ui.hint) &&
              (i == s.currentFrame ==>
                 r.shown == s.shown && r.drawCount == s.drawCount &&
                 r.ui.barWidth == s.ui.barWidth && r.ui.barVisible == s.ui.barVisible) &&
              (i != s.currentFrame ==>
                 var d := PlanDraw(images, canvas, i);
                 r.shown == (if d.Some? then d else if DrawBlanks(images, i) then None else s.shown) &&
                 r.drawCount == s.drawCount + (if d.Some? then 1 else 0) &&
                 (page.scrollBar ==> r.ui.barWidth == Some(p * 100.0) && r.ui.barVisible == Some(BarVisible(p))) &&
                 (!page.scrollBar ==> r.ui.barWidth == s.ui.barWidth && r.ui.barVisible == s.ui.barVisible))
    ensures page.container && containerHeight > 0 ==>
              r.currentFrame == FrameIndex(Progress(scrollY, containerTop, containerHeight), FRAME_COUNT)
  {
    if !page.container || containerHeight == 0 then s
    else
      var p := Progress(scrollY, containerTop, containerHeight);
      var i := FrameIndex(p, FRAME_COUNT);
      if i == s.currentFrame then AfterHint(page, p, s)
      else
        var drawn := AfterDraw(images, canvas, i, s.(currentFrame := i));
        AfterHint(page, p, drawn.(ui := AfterScrollProgress(page, p, drawn.ui)))
  }

  /** Running the update twice on the same scroll position changes nothing the second time. */
  lemma UpdateIdempotent(images: seq<Image>, canvas: Canvas, page: Page,
                         scrollY: real, containerTop: int, containerHeight: nat, s: Playback)
    requires canvas.Usable()
    requires s.currentFrame < FRAME_COUNT
    ensures var once := Update(images, canvas, page, scrollY, containerTop, containerHeight, s);
            Update(images, canvas, page, scrollY, containerTop, containerHeight, once) == once
  {
  }

  /** A zero-height container leaves the frame where it was over any number of updates. */
  lemma {:induction false} ZeroHeightRetainsFrame(images: seq<Image>, canvas: Canvas, page: Page,
                                                  ys: seq<real>, containerTop: int, s: Playback)
    requires canvas.Usable()
    requires s.currentFrame < FRAME_COUNT
    ensures UpdateAll(images, canvas, page, ys, containerTop, 0, s) == s
    decreases |ys|
  {
    if ys != [] {
      ZeroHeightRetainsFrame(images, canvas, page, ys[1..], containerTop, s);
    }
  }

  /** Updates for a series of scroll positions, in order. */
  function UpdateAll(images: seq<Image>, canvas: Canvas, page: Page,
                     ys: seq<real>, containerTop: int, containerHeight: nat, s: Playback): (r: Playback)
    requires canvas.Usable()
    requires s.currentFrame < FRAME_COUNT
    ensures r.currentFrame < FRAME_COUNT
    decreases |ys|
  {
    if ys == [] then s
    else UpdateAll(images, canvas, page, ys[1..], containerTop, containerHeight,
                   Update(images, canvas, page, ys[0], containerTop, containerHeight, s))
  }

  /** The URLs of the frames START_FRAME..END_FRAME, in ascending order. */
  function FrameSources(): (srcs: seq<string>)
    ensures |srcs| == FRAME_COUNT
  {
    seq(FRAME_COUNT, k requires 0 <= k < FRAME_COUNT => FramePath(START_FRAME + k))
  }

  function Sources(images: seq<Image>): (srcs: seq<string>)
    ensures |srcs| == |images|
    ensures forall k :: 0 <= k < |images| ==> srcs[k] == images[k].src
  {
    seq(|images|, k requires 0 <= k < |images| => images[k].src)
  }

  /** `images` as preloadImages builds it: entry k requests frame START_FRAME + k. */
  predicate IsFrameTable(images: seq<Image>) {
    Sources(images) == FrameSources()
  }

  /** The frame table has one entry per frame, each naming its own frame, all distinct. */
  lemma FrameTableShape(images: seq<Image>)
    requires IsFrameTable(images)
    ensures |images| == FRAME_COUNT == 163
    ensures forall k :: 0 <= k < |images| ==> images[k].src == FramePath(START_FRAME + k)
    ensures forall j, k :: 0 <= j < k < |images| ==> images[j].src != images[k].src
  {
    assert |Sources(images)| == |FrameSources()|;
    forall j, k | 0 <= j < k < |images| ensures images[j].src != images[k].src {
      assert Sources(images)[j] == FrameSources()[j];
      assert Sources(images)[k] == FrameSources()[k];
      if images[j].src == images[k].src {
        FramePathInjective(START_FRAME + j, START_FRAME + k);
      }
    }
  }

  class ScrollAnimation {
    const page: Page
    var canvas: Canvas
    var images: seq<Image>
    var currentFrame: nat
    var imagesLoaded: nat
    var lastScrollY: real
    /** The `ticking` flag of the scroll listener. */
    var ticking: bool
    /** Update callbacks queued with requestAnimationFrame and not yet run. */
    var queuedUpdates: nat
    /** The Promise.all over the frame promises. */
    var outcome: Outcome
    /** What the canvas shows: the last frame drawn since its backing store was reset. */
    var shown: Option<DrawCall>
    /** Number of frames painted so far. */
    var drawCount: nat
    var ui: Ui

    function Loading(): Loader
      reads this
    {
      Loader(images, imagesLoaded, outcome)
    }

    function Throttling(): Throttle
      reads this
    {
      Throttle(ticking, queuedUpdates)
    }

    function PlaybackState(): Playback
      reads this
    {
      Playback(currentFrame, shown, drawCount, ui)
    }

    ghost predicate Valid()
      reads this
    {
      canvas.Usable() &&
      IsFrameTable(images) &&
      Consistent(Loading()) &&
      currentFrame < FRAME_COUNT &&
      InStep(Throttling())
    }

    /** new ScrollAnimation(): setupCanvas, preloadImages, the scroll listener, updateLoadingProgress. */
    constructor (page: Page, innerWidth: nat, innerHeight: nat, reportedRatio: real)
      requires Drawable(innerWidth, innerHeight, reportedRatio)
      ensures Valid()
      ensures this.page == page
      ensures canvas == CanvasFor(innerWidth, innerHeight, reportedRatio)
      ensures forall k :: 0 <= k < |images| ==> images[k].state == Pending
      ensures currentFrame == 0 && imagesLoaded == 0 && lastScrollY == 0.0
      ensures !ticking && queuedUpdates == 0 && outcome == Waiting
      ensures shown == None && drawCount == 0
      ensures ui == Ui(if page.loadingBar then Some(0.0) else None, false, Untouched, None, None)
    {
      this.page := page;
      // setupCanvas runs before the frames exist, so its redraw does nothing.
      canvas := CanvasFor(innerWidth, innerHeight, reportedRatio);
      images := [];
      currentFrame := 0;
      imagesLoaded := 0;
      lastScrollY := 0.0;
      ticking := false;
      queuedUpdates := 0;
      outcome := Waiting;
      shown := None;
      drawCount := 0;
      ui := Ui(None, false, Untouched, None, None);
      new;
      PreloadImages();
      assert Loading() == Fresh(images);
      UpdateLoadingProgress();
    }

    /** preloadImages: one pending image per frame number, in ascending order. */
    method PreloadImages()
      requires images == []
      modifies this`images
      ensures IsFrameTable(images)
      ensures forall k :: 0 <= k < |images| ==> images[k].state == Pending
    {
      var i := START_FRAME;
      while i <= END_FRAME
        invariant START_FRAME <= i <= END_FRAME + 1
        invariant |images| == i - START_FRAME
        invariant forall k :: 0 <= k < |images| ==> images[k] == Image(FramePath(START_FRAME + k), Pending)
      {
        var frameNumber := PadStart(DecimalString(i), NAME_WIDTH, '0');
        images := images + [Image(PATH_PREFIX + frameNumber + PATH_SUFFIX, Pending)];
        i := i + 1;
      }
    }

    /** updateLoadingProgress: the loading bar's width is the loaded percentage. */
    method UpdateLoadingProgress()
      requires imagesLoaded <= FRAME_COUNT
      modifies this`ui
      ensures ui == AfterLoadingProgress(page, imagesLoaded, old(ui))
    {
      var progress := LoadingPercent(imagesLoaded, FRAME_COUNT);
      if page.loadingBar {
        ui := ui.(loadingWidth := Some(progress));
      }
    }

    /** img.onload for entry k; the ready step follows once every frame has loaded. */
    method ImageLoaded(k: nat, width: Dim, height: Dim)
      requires Valid()
      requires Deliverable(Loading(), LoadOk(k, width, height))
      modifies this
      ensures Valid()
      ensures Loading() == Step(old(Loading()), LoadOk(k, width, height))
      ensures outcome == Ready <==> forall j :: 0 <= j < |images| ==> images[j].Decoded()
      ensures var counted := old(PlaybackState()).(ui := AfterLoadingProgress(page, imagesLoaded, old(ui)));
              PlaybackState() ==
                if old(outcome) != Ready && outcome == Ready then ReadyStep(images, canvas, page, counted)
                else counted
      ensures canvas == old(canvas) && lastScrollY == old(lastScrollY)
      ensures Throttling() == old(Throttling())
    {
      ghost var next := Step(Loading(), LoadOk(k, width, height));
      StepConsistent(Loading(), LoadOk(k, width, height));
      ReadyIffAllLoaded(next);
      images := images[k := images[k].(state := Loaded(width, height))];
      imagesLoaded := imagesLoaded + 1;
      UpdateLoadingProgress();
      if outcome == Waiting && CountLoaded(images) == |images| {
        outcome := Ready;
        OnImagesLoaded();
      }
      assert Loading() == next;
    }

    /** img.onerror for entry k: the entry fails and the Promise.all rejects. */
    method ImageFailed(k: nat)
      requires Valid()
      requires Deliverable(Loading(), LoadError(k))
      modifies this
      ensures Valid()
      ensures Loading() == Step(old(Loading()), LoadError(k))
      ensures imagesLoaded == old(imagesLoaded)
      ensures outcome == Rejected
      ensures canvas == old(canvas) && PlaybackState() == old(PlaybackState()) && lastScrollY == old(lastScrollY)
      ensures Throttling() == old(Throttling())
    {
      StepConsistent(Loading(), LoadError(k));
      images := images[k := images[k].(state := Failed)];
      if outcome == Waiting {
        outcome := Rejected;
      }
    }

    /**
     * onImagesLoaded: hide the loading overlay, draw frame 0, show the scroll
     * hint. The fulfilled Promise.all means every frame has loaded.
     */
    method OnImagesLoaded()
      requires canvas.Usable()
      requires forall j :: 0 <= j < |images| ==> images[j].Decoded()
      modifies this`ui, this`shown, this`drawCount
      ensures PlaybackState() == ReadyStep(images, canvas, page, old(PlaybackState()))
    {
      if page.loadingOverlay {
        ui := ui.(overlayHidden := true);
      }
      DrawFrame(0);
      if page.scrollHint {
        ui := ui.(hint := Shown);
      }
    }

    /** handleScroll: record the position; queue one update unless one is pending. */
    method HandleScroll(scrollY: real)
      requires Valid()
      modifies this`lastScrollY, this`ticking, this`queuedUpdates
      ensures Valid()
      ensures lastScrollY == scrollY
      ensures Throttling() == OnScroll(old(Throttling()))
      ensures queuedUpdates <= 1
    {
      lastScrollY := scrollY;
      if !ticking {
        queuedUpdates := queuedUpdates + 1;
        ticking := true;
      }
    }

    /**
     * The queued requestAnimationFrame callback: updateFrame, which returns
     * normally, then clear `ticking`.
     */
    method AnimationFrame(containerTop: int, containerHeight: nat)
      requires Valid()
      requires queuedUpdates > 0
      modifies this`currentFrame, this`shown, this`drawCount, this`ui, this`ticking, this`queuedUpdates
      ensures Valid()
      ensures Throttling() == OnAnimationFrame(old(Throttling()), false)
      ensures !ticking && queuedUpdates == 0
      ensures PlaybackState() ==
                Update(images, canvas, page, lastScrollY, containerTop, containerHeight, old(PlaybackState()))
    {
      UpdateFrame(containerTop, containerHeight);
      ticking := false;
      queuedUpdates := queuedUpdates - 1;
    }

    /** updateFrame, reading the container's current offsetTop and offsetHeight. */
    method UpdateFrame(containerTop: int, containerHeight: nat)
      requires Valid()
      modifies this`currentFrame, this`shown, this`drawCount, this`ui
      ensures Valid()
      ensures PlaybackState() ==
                Update(images, canvas, page, lastScrollY, containerTop, containerHeight, old(PlaybackState()))
    {
      if !page.container || containerHeight == 0 {
        return;
      }
      var progress := Progress(lastScrollY, containerTop, containerHeight);
      var frameIndex := FrameIndex(progress, FRAME_COUNT);
      if frameIndex != currentFrame {
        currentFrame := frameIndex;
        DrawFrame(frameIndex);
        UpdateScrollProgress(progress);
      }
      if HintHides(progress) && page.scrollHint {
        ui := ui.(hint := Hidden);
      }
    }

    /**
     * drawFrame(k): nothing for a missing or pending image; otherwise clear
     * the canvas and draw the image, which a broken one's NaN rectangle
     * turns into no drawing at all.
     */
    method DrawFrame(k: nat)
      requires canvas.Usable()
      modifies this`shown, this`drawCount
      ensures k < |images| && images[k].state.Failed? ==> shown == None && drawCount == old(drawCount)
      ensures PlaybackState() == AfterDraw(images, canvas, k, old(PlaybackState()))
    {
      if k >= |images| || !images[k].Complete() {
        return;
      }
      shown := None;
      var d := PlanDraw(images, canvas, k);
      if d.Some? {
        shown := d;
        drawCount := drawCount + 1;
      }
    }

    /** updateScrollProgress(progress). */
    method UpdateScrollProgress(progress: real)
      modifies this`ui
      ensures ui == AfterScrollProgress(page, progress, old(ui))
    {
      if page.scrollBar {
        ui := ui.(barWidth := Some(progress * 100.0));
        ui := ui.(barVisible := Some(BarVisible(progress)));
      }
    }

    /**
     * The resize handler (updateCanvasSize). Resetting the backing store
     * blanks the canvas; the current frame is drawn again if it has loaded.
     */
    method UpdateCanvasSize(innerWidth: nat, innerHeight: nat, reportedRatio: real)
      requires Valid()
      requires Drawable(innerWidth, innerHeight, reportedRatio)
      modifies this`canvas, this`shown, this`drawCount
      ensures Valid()
      ensures canvas == CanvasFor(innerWidth, innerHeight, reportedRatio)
      ensures shown == PlanDraw(images, canvas, currentFrame)
      ensures drawCount == old(drawCount) + (if images[currentFrame].Decoded() then 1 else 0)
    {
      canvas := CanvasFor(innerWidth, innerHeight, reportedRatio);
      shown := None;
      if images[currentFrame].Complete() {
        DrawFrame(currentFrame);
      }
    }
  }
}
