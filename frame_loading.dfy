/**
 * The loader of the hero animation, as a pure state machine: one load or
 * error event per frame, applied one at a time (the browser runs the image
 * callbacks serially), a counter of loaded frames, and the outcome of the
 * Promise.all that waits for every frame. Also the scroll throttle's state.
 */
module FrameLoading {
  import opened Viewport

  /** The frame numbers the player loads. */
  const START_FRAME: nat := 30
  const END_FRAME: nat := 192
  const FRAME_COUNT: nat := END_FRAME - START_FRAME + 1

  datatype LoadState = Pending | Loaded(width: Dim, height: Dim) | Failed

  /** One entry of the `images` array: the requested URL and how its request went. */
  datatype Image = Image(src: string, state: LoadState) {
    /** The image has been decoded: onload has fired and its natural size is known. */
    predicate Decoded() {
      state.Loaded?
    }

    /** `img.complete`: the request has settled, decoded or broken. */
    predicate Complete() {
      !state.Pending?
    }
  }

  function CountLoaded(images: seq<Image>): (n: nat)
    ensures n <= |images|
  {
    if images == [] then 0
    else (if images[0].Decoded() then 1 else 0) + CountLoaded(images[1..])
  }

  /** Every frame has loaded exactly when the count reaches the length. */
  lemma {:induction false} CountLoadedAll(images: seq<Image>)
    ensures CountLoaded(images) == |images| <==> forall k :: 0 <= k < |images| ==> images[k].Decoded()
  {
    if images != [] {
      CountLoadedAll(images[1..]);
      if forall k :: 0 <= k < |images| ==> images[k].Decoded() {
        assert forall k :: 0 <= k < |images| - 1 ==> images[1..][k].Decoded() by {
          forall k | 0 <= k < |images| - 1 ensures images[1..][k].Decoded() {
            assert images[1..][k] == images[k + 1];
          }
        }
      } else {
        var j :| 0 <= j < |images| && !images[j].Decoded();
        if j > 0 {
          assert !images[1..][j - 1].Decoded();
        }
      }
    }
  }

  /** Nothing is counted while no entry has loaded. */
  lemma {:induction false} CountLoadedNone(images: seq<Image>)
    requires forall k :: 0 <= k < |images| ==> !images[k].Decoded()
    ensures CountLoaded(images) == 0
  {
    if images != [] {
      assert forall k :: 0 <= k < |images| - 1 ==> images[1..][k] == images[k + 1];
      CountLoadedNone(images[1..]);
    }
  }

  /** Replacing one entry changes the count by what that entry contributes. */
  lemma {:induction false} CountLoadedUpdate(images: seq<Image>, k: nat, v: Image)
    requires k < |images|
    ensures CountLoaded(images[k := v]) + (if images[k].Decoded() then 1 else 0)
         == CountLoaded(images) + (if v.Decoded() then 1 else 0)
  {
    if k == 0 {
      assert images[k := v][1..] == images[1..];
    } else {
      assert images[k := v][1..] == images[1..][k - 1 := v];
      CountLoadedUpdate(images[1..], k - 1, v);
    }
  }

  /** The Promise.all over the frame promises: pending, fulfilled, or rejected. */
  datatype Outcome = Waiting | Ready | Rejected

  /** The loading side of the player: `images`, `imagesLoaded`, the Promise.all. */
  datatype Loader = Loader(images: seq<Image>, loaded: nat, outcome: Outcome)

  /** img.onload (with the decoded natural size) or img.onerror for entry `frame`. */
  datatype LoadEvent = LoadOk(frame: nat, width: Dim, height: Dim) | LoadError(frame: nat)

  /** The browser settles each image once: only a pending entry gets an event. */
  predicate Deliverable(l: Loader, e: LoadEvent) {
    e.frame < |l.images| && l.images[e.frame].state == Pending
  }

  predicate HasFailure(images: seq<Image>) {
    exists k :: 0 <= k < |images| && images[k].state.Failed?
  }

  /** The invariant the load callbacks keep. */
  predicate Consistent(l: Loader) {
    |l.images| > 0
    && l.loaded == CountLoaded(l.images)
    && (l.outcome == Ready <==> CountLoaded(l.images) == |l.images|)
    && (l.outcome == Rejected <==> HasFailure(l.images))
  }

  /** The state right after preloadImages: every request pending, nothing counted. */
  function Fresh(images: seq<Image>): (l: Loader)
    requires |images| > 0
    requires forall k :: 0 <= k < |images| ==> images[k].state == Pending
    ensures Consistent(l)
  {
    assert !images[0].Decoded();
    CountLoadedNone(images);
    CountLoadedAll(images);
    Loader(images, 0, Waiting)
  }

  /**
   * One callback. onload marks the entry loaded and increments the counter;
   * once every promise has resolved, a still-pending Promise.all fulfils.
   * onerror marks the entry failed and rejects a pending Promise.all; the
   * counter is not touched.
   */
  function Step(l: Loader, e: LoadEvent): (r: Loader)
    requires Deliverable(l, e)
    ensures |r.images| == |l.images|
    ensures forall k :: 0 <= k < |l.images| ==> r.images[k].src == l.images[k].src
    ensures forall k :: 0 <= k < |l.images| && k != e.frame ==> r.images[k] == l.images[k]
    ensures r.images[e.frame].state == if e.LoadOk? then Loaded(e.width, e.height) else Failed
  {
    match e
    case LoadOk(k, w, h) =>
      var images := l.images[k := l.images[k].(state := Loaded(w, h))];
      Loader(images, l.loaded + 1,
             if l.outcome == Waiting && CountLoaded(images) == |images| then Ready else l.outcome)
    case LoadError(k) =>
      Loader(l.images[k := l.images[k].(state := Failed)], l.loaded,
             if l.outcome == Waiting then Rejected else l.outcome)
  }

  /** Each callback keeps the counter equal to the loaded entries and the outcome in step. */
  lemma StepConsistent(l: Loader, e: LoadEvent)
    requires Consistent(l) && Deliverable(l, e)
    ensures Consistent(Step(l, e))
    ensures Step(l, e).loaded == l.loaded + (if e.LoadOk? then 1 else 0)
    ensures l.outcome == Rejected ==> Step(l, e).outcome == Rejected
    ensures e.LoadError? ==> Step(l, e).outcome == Rejected
  {
    var r := Step(l, e);
    var k := e.frame;
    CountLoadedUpdate(l.images, k, r.images[k]);
    assert r.images == l.images[k := r.images[k]];
    CountLoadedAll(l.images);
    CountLoadedAll(r.images);
    assert r.images[k].state.Failed? ==> HasFailure(r.images);
    if HasFailure(l.images) {
      var j :| 0 <= j < |l.images| && l.images[j].state.Failed?;
      assert j != k;
      assert r.images[j].state.Failed?;
    }
    if HasFailure(r.images) && e.LoadOk? {
      var j :| 0 <= j < |r.images| && r.images[j].state.Failed?;
      assert j != k;
      assert l.images[j].state.Failed?;
    }
  }

  /** A sequence of callbacks each of which settles a still-pending entry. */
  predicate AllDeliverable(l: Loader, es: seq<LoadEvent>)
    decreases |es|
  {
    es == [] || (Deliverable(l, es[0]) && AllDeliverable(Step(l, es[0]), es[1..]))
  }

  /** The callbacks applied in the order the browser runs them. */
  function Run(l: Loader, es: seq<LoadEvent>): Loader
    requires AllDeliverable(l, es)
    decreases |es|
  {
    if es == [] then l else Run(Step(l, es[0]), es[1..])
  }

  function CountLoadEvents(es: seq<LoadEvent>): nat {
    if es == [] then 0 else (if es[0].LoadOk? then 1 else 0) + CountLoadEvents(es[1..])
  }

  /**
   * Over any run the invariant holds, the counter never decreases and grows
   * by exactly the number of successful loads (failures do not count), and
   * it never passes the number of frames.
   */
  lemma {:induction false} RunConsistent(l: Loader, es: seq<LoadEvent>)
    requires Consistent(l) && AllDeliverable(l, es)
    ensures Consistent(Run(l, es))
    ensures |Run(l, es).images| == |l.images|
    ensures Run(l, es).loaded == l.loaded + CountLoadEvents(es)
    ensures l.loaded <= Run(l, es).loaded <= |l.images|
    decreases |es|
  {
    if es != [] {
      StepConsistent(l, es[0]);
      RunConsistent(Step(l, es[0]), es[1..]);
    }
  }

  /** Once rejected, the Promise.all stays rejected. */
  lemma {:induction false} RejectedStays(l: Loader, es: seq<LoadEvent>)
    requires Consistent(l) && AllDeliverable(l, es)
    requires l.outcome == Rejected
    ensures Run(l, es).outcome == Rejected
    decreases |es|
  {
    if es != [] {
      StepConsistent(l, es[0]);
      RejectedStays(Step(l, es[0]), es[1..]);
    }
  }

  /** A single failed frame means the ready step never runs, whatever else loads. */
  lemma {:induction false} FailureBlocksReady(l: Loader, es: seq<LoadEvent>, i: nat)
    requires Consistent(l) && AllDeliverable(l, es)
    requires i < |es| && es[i].LoadError?
    ensures Run(l, es).outcome == Rejected
    decreases |es|
  {
    StepConsistent(l, es[0]);
    if i == 0 {
      RejectedStays(Step(l, es[0]), es[1..]);
    } else {
      FailureBlocksReady(Step(l, es[0]), es[1..], i - 1);
    }
  }

  /** The Promise.all is fulfilled exactly when every frame has loaded. */
  lemma ReadyIffAllLoaded(l: Loader)
    requires Consistent(l)
    ensures l.outcome == Ready <==> forall k :: 0 <= k < |l.images| ==> l.images[k].Decoded()
  {
    CountLoadedAll(l.images);
  }

  /** One successful load per frame makes the player ready with the counter at the frame count. */
  lemma AllLoadsReady(images: seq<Image>, es: seq<LoadEvent>)
    requires |images| > 0
    requires forall k :: 0 <= k < |images| ==> images[k].state == Pending
    requires AllDeliverable(Fresh(images), es)
    requires |es| == |images|
    requires forall i :: 0 <= i < |es| ==> es[i].LoadOk?
    ensures Run(Fresh(images), es).outcome == Ready
    ensures Run(Fresh(images), es).loaded == |images|
  {
    RunConsistent(Fresh(images), es);
    LoadEventsCounted(es);
  }

  lemma {:induction false} LoadEventsCounted(es: seq<LoadEvent>)
    requires forall i :: 0 <= i < |es| ==> es[i].LoadOk?
    ensures CountLoadEvents(es) == |es|
  {
    if es != [] {
      LoadEventsCounted(es[1..]);
    }
  }

  /**
   * The scroll throttle: `ticking` and the number of update callbacks queued
   * with requestAnimationFrame.
   */
  datatype Throttle = Throttle(ticking: bool, queued: nat)

  /** The throttle's invariant: at most one queued update, and only while ticking. */
  predicate ThrottleOk(t: Throttle) {
    t.queued <= 1 && (t.queued == 1 ==> t.ticking)
  }

  /** The stronger invariant that holds while no update has thrown: a queued update exactly while ticking. */
  predicate InStep(t: Throttle) {
    t.queued == if t.ticking then 1 else 0
  }

  /** After an update threw: `ticking` is stuck and nothing is queued. */
  predicate Stuck(t: Throttle) {
    t.ticking && t.queued == 0
  }

  /** handleScroll: schedule an update only when none is pending. */
  function OnScroll(t: Throttle): (r: Throttle)
    ensures r.ticking
    ensures r.queued == t.queued + (if t.ticking then 0 else 1)
  {
    if t.ticking then t else Throttle(true, t.queued + 1)
  }

  /**
   * The requestAnimationFrame callback: run the update, then clear `ticking`.
   * When the update throws, the statement that clears `ticking` is skipped.
   */
  function OnAnimationFrame(t: Throttle, threw: bool): (r: Throttle)
    requires t.queued > 0
    ensures r.queued == t.queued - 1
    ensures r.ticking <==> t.ticking && threw
  {
    Throttle(t.ticking && threw, t.queued - 1)
  }

  /** A scroll event, or the queued callback running (and whether its update threw). */
  datatype ThrottleEvent = ScrollEvent | AnimationFrame(threw: bool)

  /** The host only runs a callback that was queued. */
  predicate Runnable(t: Throttle, es: seq<ThrottleEvent>)
    decreases |es|
  {
    es == [] ||
    (match es[0]
     case ScrollEvent => Runnable(OnScroll(t), es[1..])
     case AnimationFrame(threw) => t.queued > 0 && Runnable(OnAnimationFrame(t, threw), es[1..]))
  }

  function RunThrottle(t: Throttle, es: seq<ThrottleEvent>): Throttle
    requires Runnable(t, es)
    decreases |es|
  {
    if es == [] then t
    else match es[0]
      case ScrollEvent => RunThrottle(OnScroll(t), es[1..])
      case AnimationFrame(threw) => RunThrottle(OnAnimationFrame(t, threw), es[1..])
  }

  /** Whatever the interleaving of scrolls and frames, at most one update is pending. */
  lemma {:induction false} AtMostOnePending(t: Throttle, es: seq<ThrottleEvent>)
    requires ThrottleOk(t) && Runnable(t, es)
    ensures ThrottleOk(RunThrottle(t, es))
    ensures RunThrottle(t, es).queued <= 1
    decreases |es|
  {
    if es != [] {
      match es[0]
      case ScrollEvent => AtMostOnePending(OnScroll(t), es[1..]);
      case AnimationFrame(threw) => AtMostOnePending(OnAnimationFrame(t, threw), es[1..]);
    }
  }

  /** While no update throws, an update is queued exactly while `ticking` is set. */
  lemma {:induction false} NoThrowKeepsStep(t: Throttle, es: seq<ThrottleEvent>)
    requires InStep(t) && Runnable(t, es)
    requires forall i :: 0 <= i < |es| ==> es[i] != AnimationFrame(true)
    ensures InStep(RunThrottle(t, es))
    decreases |es|
  {
    if es != [] {
      match es[0]
      case ScrollEvent => NoThrowKeepsStep(OnScroll(t), es[1..]);
      case AnimationFrame(threw) => NoThrowKeepsStep(OnAnimationFrame(t, threw), es[1..]);
    }
  }

  /** An update that throws leaves the throttle stuck. */
  lemma ThrowSticks(t: Throttle)
    requires ThrottleOk(t) && t.queued > 0
    ensures Stuck(OnAnimationFrame(t, true))
  {
  }

  /** Once stuck, no later scroll queues an update: the animation stops following the scroll. */
  lemma {:induction false} StuckStays(t: Throttle, es: seq<ThrottleEvent>)
    requires Stuck(t) && Runnable(t, es)
    ensures RunThrottle(t, es) == t
    ensures forall i :: 0 <= i < |es| ==> es[i] == ScrollEvent
    decreases |es|
  {
    if es != [] {
      assert es[0] == ScrollEvent;
      StuckStays(OnScroll(t), es[1..]);
    }
  }

  function Scrolls(n: nat): (es: seq<ThrottleEvent>)
    ensures |es| == n && forall i :: 0 <= i < n ==> es[i] == ScrollEvent
  {
    if n == 0 then [] else [ScrollEvent] + Scrolls(n - 1)
  }

  /** A burst of scroll events from an idle throttle queues exactly one update. */
  lemma {:induction false} BurstQueuesOne(t: Throttle, n: nat)
    requires InStep(t)
    requires n > 0
    ensures Runnable(t, Scrolls(n))
    ensures RunThrottle(t, Scrolls(n)) == Throttle(true, 1)
    decreases n
  {
    var es := Scrolls(n);
    assert es[0] == ScrollEvent;
    assert es[1..] == Scrolls(n - 1);
    if n > 1 {
      BurstQueuesOne(OnScroll(t), n - 1);
    }
  }
}
