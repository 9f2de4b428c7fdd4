/** js/animation.js: the `clamp` helper, the one-shot `startMorph` latch of
    the intro overlay with its wheel, swipe and timeout triggers, the
    overlay's fade-out and removal, and the tile background behind the hero. */
module IntroAnimation {

  // ----- clamp (js/animation.js:11) -----

  /** `Math.max(a, Math.min(b, v))` (NaN is not modelled). */
  function Clamp(v: real, a: real, b: real): (r: real)
    ensures a <= b ==> a <= r <= b
    ensures a <= v <= b ==> r == v
    ensures a <= b && v < a ==> r == a
    ensures a <= b && v > b ==> r == b
    ensures a > b ==> r == a
  {
    var low := if b <= v then b else v;
    if a >= low then a else low
  }

  /** Clamping twice into the same bounds changes nothing more. */
  lemma ClampIdempotent(v: real, a: real, b: real)
    requires a <= b
    ensures Clamp(Clamp(v, a, b), a, b) == Clamp(v, a, b)
  {
  }

  // ----- The morph latch (js/animation.js:111-140) -----

  /** What reaches the closure of `createIntroOverlay`: a wheel event, a
      touchstart or touchmove with the first touch's `clientY`, or the
      six-second fallback timer. */
  datatype IntroEvent =
    | Wheel(deltaY: real)
    | TouchStart(clientY: real)
    | TouchMove(clientY: real)
    | FallbackTimeout

  /** The closure variables `handled` and `touchStartY`, and how many
      'intro:morph' events have been dispatched. */
  datatype Latch = Latch(handled: bool, touchStartY: real, dispatched: nat)

  const InitialLatch := Latch(false, 0.0, 0)

  /** `startMorph`: the first call dispatches and sets `handled`; later calls
      return at once. */
  function LatchMorph(l: Latch): (r: Latch)
    ensures r.handled && r.touchStartY == l.touchStartY
    ensures r.dispatched == if l.handled then l.dispatched else l.dispatched + 1
    ensures l.handled ==> r == l
  {
    if l.handled then l else l.(handled := true, dispatched := l.dispatched + 1)
  }

  /** Whether an event calls `startMorph`: a wheel with `deltaY` above 5, a
      swipe up of more than 30 pixels since the last touchstart, or the timer. */
  predicate Triggers(l: Latch, e: IntroEvent)
  {
    match e
    case Wheel(deltaY) => deltaY > 5.0
    case TouchStart(_) => false
    case TouchMove(y) => l.touchStartY - y > 30.0
    case FallbackTimeout => true
  }

  /** One event through the handlers of js/animation.js:123-140. */
  function Step(l: Latch, e: IntroEvent): (r: Latch)
    ensures l.handled ==> r.handled && r.dispatched == l.dispatched
    ensures l.dispatched <= r.dispatched <= l.dispatched + 1
    ensures e.TouchStart? ==> r == l.(touchStartY := e.clientY)
  {
    match e
    case Wheel(deltaY) => if deltaY > 5.0 then LatchMorph(l) else l
    case TouchStart(y) => l.(touchStartY := y)
    case TouchMove(y) => if l.touchStartY - y > 30.0 then LatchMorph(l) else l
    case FallbackTimeout => LatchMorph(l)
  }

  /** A step sets `handled` exactly when it was already set or the event
      triggers, and dispatches exactly when it triggers for the first time;
      only a touchstart moves `touchStartY`. */
  lemma StepLatches(l: Latch, e: IntroEvent)
    ensures Step(l, e).handled <==> l.handled || Triggers(l, e)
    ensures Step(l, e).dispatched == if !l.handled && Triggers(l, e) then l.dispatched + 1 else l.dispatched
    ensures !e.TouchStart? ==> Step(l, e).touchStartY == l.touchStartY
  {
  }

  /** The events in order, from latch `l`. */
  function Run(l: Latch, events: seq<IntroEvent>): Latch
    decreases |events|
  {
    if |events| == 0 then l else Run(Step(l, events[0]), events[1..])
  }

  /** Running two batches of events is running them one after the other. */
  lemma {:induction false} RunAppend(l: Latch, a: seq<IntroEvent>, b: seq<IntroEvent>)
    ensures Run(l, a + b) == Run(Run(l, a), b)
    decreases |a|
  {
    if |a| > 0 {
      assert (a + b)[0] == a[0] && (a + b)[1..] == a[1..] + b;
      RunAppend(Step(l, a[0]), a[1..], b);
    } else {
      assert a + b == b;
    }
  }

  /** Once set, `handled` stays set, and at most one event is dispatched
      over any sequence of wheel, touch and timer events. */
  lemma {:induction false} RunDispatchesOnce(l: Latch, events: seq<IntroEvent>)
    ensures l.handled ==> Run(l, events).handled && Run(l, events).dispatched == l.dispatched
    ensures !l.handled ==> Run(l, events).dispatched == if Run(l, events).handled then l.dispatched + 1 else l.dispatched
    decreases |events|
  {
    if |events| > 0 {
      StepLatches(l, events[0]);
      RunDispatchesOnce(Step(l, events[0]), events[1..]);
    }
  }

  /** From a fresh overlay: 'intro:morph' is dispatched at most once, and
      once the six-second timer has fired it has been dispatched exactly once. */
  lemma MorphAtMostOnce(events: seq<IntroEvent>)
    ensures Run(InitialLatch, events).dispatched <= 1
    ensures Run(InitialLatch, events).dispatched == 1 <==> Run(InitialLatch, events).handled
    ensures Run(InitialLatch, events + [FallbackTimeout]).dispatched == 1
  {
    RunDispatchesOnce(InitialLatch, events);
    RunAppend(InitialLatch, events, [FallbackTimeout]);
    var l := Run(InitialLatch, events);
    assert Run(l, [FallbackTimeout]) == LatchMorph(l);
    RunDispatchesOnce(InitialLatch, events + [FallbackTimeout]);
  }

  /** A small wheel movement, or a swipe of 30 pixels or less, leaves the
      latch as it is. */
  lemma SmallGesturesIgnored(l: Latch, deltaY: real, y: real)
    ensures deltaY <= 5.0 ==> Step(l, Wheel(deltaY)) == l
    ensures l.touchStartY - y <= 30.0 ==> Step(l, TouchMove(y)) == l
  {
  }

  /** A swipe is measured from the last touchstart only: after two
      touchstarts at `y0` and then `y1`, a touchmove to `y` morphs exactly
      when `y1 - y` exceeds 30 pixels, whatever `y0` was. */
  lemma SwipeFromLastTouchStart(l: Latch, y0: real, y1: real, y: real)
    ensures Run(l, [TouchStart(y0), TouchStart(y1), TouchMove(y)]).handled <==> l.handled || y1 - y > 30.0
    ensures Run(l, [TouchStart(y0), TouchStart(y1), TouchMove(y)]).dispatched
              == if !l.handled && y1 - y > 30.0 then l.dispatched + 1 else l.dispatched
  {
    var events := [TouchStart(y0), TouchStart(y1), TouchMove(y)];
    var l1 := l.(touchStartY := y0);
    var l2 := l.(touchStartY := y1);
    assert Run(l, events) == Run(l1, events[1..]);
    assert events[1..][1..] == [TouchMove(y)];
    assert Run(l1, events[1..]) == Run(l2, [TouchMove(y)]);
    assert Run(l2, [TouchMove(y)]) == Run(Step(l2, TouchMove(y)), []);
  }

  // ----- Tiles (js/animation.js:149-172) -----

  /** A tile: its background and border radius. */
  datatype Tile = Tile(background: string, borderRadius: string)

  const TileColumns := 40
  const TileRows := 18
  const SmallTile := Tile("rgba(0,0,0,0.18)", "2px")

  /** The `#tileWrap` grid: its column template and its tiles. */
  datatype TileWrap = TileWrap(gridTemplateColumns: string, tiles: seq<Tile>)

  /** The loop of `createTileBackground`: 40 × 18 = 720 identical tiles,
      which fill the 40-column grid in exactly 18 rows. */
  method BuildTiles() returns (tiles: seq<Tile>)
    ensures |tiles| == 720 && |tiles| == TileColumns * TileRows
    ensures forall k :: 0 <= k < |tiles| ==> tiles[k] == SmallTile
  {
    tiles := [];
    var i := 0;
    while i < TileColumns * TileRows
      invariant 0 <= i <= TileColumns * TileRows
      invariant |tiles| == i
      invariant forall k :: 0 <= k < i ==> tiles[k] == SmallTile
    {
      tiles := tiles + [SmallTile];
      i := i + 1;
    }
  }

  // ----- The page (js/animation.js:14-178) -----

  /** The document as js/animation.js sees it: whether it has a `.hero`,
      the tile grids appended to the hero, the `#introOverlay` element and
      its fade, the latch of the latest `createIntroOverlay` closure and
      the timers that closure has pending. */
  class IntroPage {
    const heroPresent: bool
    var heroTileWraps: seq<TileWrap>
    var overlayPresent: bool
    var overlayOpacity: string
    var overlayPointerEvents: string
    var listening: bool
    var handled: bool
    var touchStartY: real
    var morphEvents: nat
    var removeIntroPending: bool
    var detachPending: bool
    ghost var overlaysCreated: nat

    /** Timers only run after a morph; an overlay only leaves the page after
        its closure has morphed; and every overlay created so far has
        dispatched at most one 'intro:morph' (earlier closures are spent). */
    ghost predicate Valid()
      reads this
    {
      && (overlayPresent ==> listening)
      && (removeIntroPending ==> handled && overlayPresent)
      && (detachPending ==> handled && overlayPresent && !removeIntroPending)
      && (listening && !overlayPresent ==> handled)
      && (listening ==> overlaysCreated >= 1)
      && morphEvents == (if listening && !handled then overlaysCreated - 1 else overlaysCreated)
    }

    /** A loaded page, before DOMContentLoaded. */
    constructor (hero: bool)
      ensures Valid() && heroPresent == hero && heroTileWraps == []
      ensures !overlayPresent && !listening && morphEvents == 0
    {
      heroPresent := hero;
      heroTileWraps := [];
      overlayPresent, overlayOpacity, overlayPointerEvents := false, "", "";
      listening, handled, touchStartY := false, false, 0.0;
      morphEvents := 0;
      removeIntroPending, detachPending := false, false;
      overlaysCreated := 0;
    }

    /** The DOMContentLoaded handler: tiles first, then the overlay. */
    method OnDomContentLoaded()
      requires Valid()
      modifies this
      ensures Valid()
      ensures heroTileWraps == old(heroTileWraps) + (if heroPresent then [TileWrap("repeat(40, 1fr)", seq(720, _ => SmallTile))] else [])
      ensures overlayPresent && listening && morphEvents == old(morphEvents)
      ensures old(overlayPresent) ==>
                overlayOpacity == old(overlayOpacity) && overlayPointerEvents == old(overlayPointerEvents)
                && handled == old(handled) && touchStartY == old(touchStartY)
                && removeIntroPending == old(removeIntroPending) && detachPending == old(detachPending)
      ensures !old(overlayPresent) ==>
                overlayOpacity == "" && overlayPointerEvents == "auto"
                && !handled && touchStartY == 0.0 && !removeIntroPending && !detachPending
    {
      CreateTileBackground();
      CreateIntroOverlay();
    }

    /** `createTileBackground`: append a 40-column grid of 720 tiles to the
        hero, or do nothing when there is no hero. */
    method CreateTileBackground()
      modifies this`heroTileWraps
      ensures heroTileWraps == old(heroTileWraps) + (if heroPresent then [TileWrap("repeat(40, 1fr)", seq(720, _ => SmallTile))] else [])
    {
      if !heroPresent {
        return;
      }
      var tiles := BuildTiles();
      assert tiles == seq(720, _ => SmallTile);
      heroTileWraps := heroTileWraps + [TileWrap("repeat(40, 1fr)", tiles)];
    }

    /** `createIntroOverlay`: with an overlay already on the page nothing
        changes; otherwise a new overlay and a new closure with a fresh latch,
        listening from now on. */
    method CreateIntroOverlay()
      requires Valid()
      modifies this`overlayPresent, this`overlayOpacity, this`overlayPointerEvents, this`listening, this`handled,
               this`touchStartY, this`removeIntroPending, this`detachPending, this`overlaysCreated
      ensures Valid() && overlayPresent && listening
      ensures old(overlayPresent) ==>
                overlayOpacity == old(overlayOpacity) && overlayPointerEvents == old(overlayPointerEvents)
                && handled == old(handled) && touchStartY == old(touchStartY)
                && removeIntroPending == old(removeIntroPending) && detachPending == old(detachPending)
                && overlaysCreated == old(overlaysCreated)
      ensures !old(overlayPresent) ==>
                overlayOpacity == "" && overlayPointerEvents == "auto"
                && !handled && touchStartY == 0.0 && !removeIntroPending && !detachPending
                && overlaysCreated == old(overlaysCreated) + 1
    {
      if overlayPresent {
        return;
      }
      overlayPresent := true;
      overlayOpacity, overlayPointerEvents := "", "auto";
      listening := true;
      handled, touchStartY := false, 0.0;
      removeIntroPending, detachPending := false, false;
      overlaysCreated := overlaysCreated + 1;
    }

    /** `startMorph` of the latest closure. */
    method StartMorph()
      requires Valid() && listening
      modifies this`handled, this`morphEvents, this`removeIntroPending
      ensures Valid()
      ensures Latch(handled, touchStartY, morphEvents) == LatchMorph(Latch(old(handled), touchStartY, old(morphEvents)))
      ensures removeIntroPending == (old(removeIntroPending) || (!old(handled) && overlayPresent))
    {
      if handled {
        return;
      }
      handled := true;
      morphEvents := morphEvents + 1;
      if overlayPresent {
        removeIntroPending := true;
      }
    }

    /** An event reaching the listeners; with no overlay ever created there
        are no listeners and nothing changes. */
    method Dispatch(e: IntroEvent)
      requires Valid()
      modifies this`handled, this`touchStartY, this`morphEvents, this`removeIntroPending
      ensures Valid()
      ensures listening ==> Latch(handled, touchStartY, morphEvents) == Step(Latch(old(handled), old(touchStartY), old(morphEvents)), e)
      ensures !listening ==> handled == old(handled) && touchStartY == old(touchStartY) && morphEvents == old(morphEvents)
      ensures listening ==> removeIntroPending == (old(removeIntroPending) || (!old(handled) && handled && overlayPresent))
      ensures !listening ==> removeIntroPending == old(removeIntroPending)
    {
      if !listening {
        return;
      }
      match e
      case Wheel(deltaY) =>
        if deltaY > 5.0 {
          StartMorph();
        }
      case TouchStart(y) =>
        touchStartY := y;
      case TouchMove(y) =>
        var dy := touchStartY - y;
        if dy > 30.0 {
          StartMorph();
        }
      case FallbackTimeout =>
        StartMorph();
    }

    /** The 900 ms timer of `startMorph` runs `removeIntro`: the overlay fades
        and lets clicks through, and its removal is scheduled. */
    method RemoveIntroTimerFired()
      requires Valid() && removeIntroPending
      modifies this`overlayOpacity, this`overlayPointerEvents, this`removeIntroPending, this`detachPending
      ensures Valid()
      ensures overlayOpacity == "0" && overlayPointerEvents == "none"
      ensures !removeIntroPending && detachPending
    {
      overlayOpacity, overlayPointerEvents := "0", "none";
      removeIntroPending := false;
      detachPending := true;
    }

    /** The 700 ms timer of `removeIntro`: the overlay leaves the page. */
    method DetachTimerFired()
      requires Valid() && detachPending
      modifies this`overlayPresent, this`detachPending
      ensures Valid() && !overlayPresent && !detachPending
    {
      overlayPresent := false;
      detachPending := false;
    }

    /** Every overlay dispatches at most one 'intro:morph'. */
    lemma MorphsPerOverlay()
      requires Valid()
      ensures morphEvents <= overlaysCreated
    {
    }
  }
}
