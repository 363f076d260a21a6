/**
 * The helpers that restyle the slides and the pagination bullets of a
 * running slider. A slide is the style record of its element, a bullet the
 * optional `.bullet-progress` bar inside it; the helpers walk the arrays
 * of slides and bullets and rewrite the records in place.
 */
module SlideHelpers {
  import opened JsValues

  /** A CSS length as the helpers write it. */
  datatype Length = Unset | Px(px: nat) | Percent(percent: nat)

  datatype PointerEvents = PointerEventsUnset | PointerEventsAuto | PointerEventsNone

  /** A slide: its rendered height and the style properties the helpers write. */
  datatype Slide = Slide(offsetHeight: nat, height: Length, zIndex: Option<int>, pointerEvents: PointerEvents)

  /** The `transition` of a progress bar. */
  datatype Transition = TransitionUnset | TransitionNone | WidthLinear(ms: real)

  datatype Bar = Bar(transition: Transition, width: Length)

  /** A pagination bullet and the progress bar inside it, if any. */
  datatype Bullet = Bullet(bar: Option<Bar>)

  // ---------------------------------------------------------------------------
  // Slide heights and stacking (lines 507-528)
  // ---------------------------------------------------------------------------

  /** The tallest rendered height among the slides. */
  function TallestOffset(slides: seq<Slide>): (m: nat)
    requires |slides| > 0
    ensures exists i :: 0 <= i < |slides| && slides[i].offsetHeight == m
    ensures forall i :: 0 <= i < |slides| ==> slides[i].offsetHeight <= m
  {
    if |slides| == 1 then slides[0].offsetHeight
    else
      var rest := TallestOffset(slides[1..]);
      assert forall i :: 1 <= i < |slides| ==> slides[i] == slides[1..][i - 1];
      if slides[0].offsetHeight >= rest then slides[0].offsetHeight else rest
  }

  /**
   * `adjustSlidesHeight` (lines 507-514): every slide gets the height of
   * the tallest slide, in pixels; nothing else about a slide changes. With
   * no slides there is nothing to write (`Math.max()` is -Infinity).
   */
  method AdjustSlidesHeight(slides: array<Slide>)
    modifies slides
    ensures slides.Length > 0 ==>
      forall i :: 0 <= i < slides.Length ==> slides[i] == old(slides[i]).(height := Px(TallestOffset(old(slides[..]))))
    ensures slides.Length == 0 ==> slides[..] == old(slides[..])
    // all slides end up equally tall, and none is cut below its own height
    ensures forall i, j :: 0 <= i < slides.Length && 0 <= j < slides.Length ==> slides[i].height == slides[j].height
    ensures forall i :: 0 <= i < slides.Length ==> slides[i].height.Px? && old(slides[i].offsetHeight) <= slides[i].height.px
  {
    if slides.Length == 0 {
      return;
    }
    var maxHeight := slides[0].offsetHeight;
    var i := 1;
    while i < slides.Length
      invariant 1 <= i <= slides.Length
      invariant exists j :: 0 <= j < i && slides[j].offsetHeight == maxHeight
      invariant forall j :: 0 <= j < i ==> slides[j].offsetHeight <= maxHeight
    {
      if slides[i].offsetHeight > maxHeight {
        maxHeight := slides[i].offsetHeight;
      }
      i := i + 1;
    }
    assert maxHeight == TallestOffset(slides[..]) by {
      var m := TallestOffset(slides[..]);
      var j :| 0 <= j < slides.Length && slides[j].offsetHeight == maxHeight;
      var k :| 0 <= k < slides.Length && slides[..][k].offsetHeight == m;
      assert slides[..][j].offsetHeight <= m;
    }
    i := 0;
    while i < slides.Length
      invariant 0 <= i <= slides.Length
      invariant forall j :: 0 <= j < i ==> slides[j] == old(slides[j]).(height := Px(maxHeight))
      invariant forall j :: i <= j < slides.Length ==> slides[j] == old(slides[j])
    {
      slides[i] := slides[i].(height := Px(maxHeight));
      i := i + 1;
    }
  }

  /** `setSlidesFullHeight` (lines 516-520): every slide's height becomes "100%". */
  method SetSlidesFullHeight(slides: array<Slide>)
    modifies slides
    ensures forall i :: 0 <= i < slides.Length ==> slides[i] == old(slides[i]).(height := Percent(100))
  {
    var i := 0;
    while i < slides.Length
      invariant 0 <= i <= slides.Length
      invariant forall j :: 0 <= j < i ==> slides[j] == old(slides[j]).(height := Percent(100))
      invariant forall j :: i <= j < slides.Length ==> slides[j] == old(slides[j])
    {
      slides[i] := slides[i].(height := Percent(100));
      i := i + 1;
    }
  }

  /** The slide at `activeIndex` is on top and clickable; every other one is below and inert. */
  predicate MarksOnlyActive(slides: seq<Slide>, activeIndex: int) {
    forall i :: 0 <= i < |slides| ==>
      && (slides[i].zIndex == Some(2) <==> i == activeIndex)
      && (slides[i].zIndex == Some(1) <==> i != activeIndex)
      && (slides[i].pointerEvents == PointerEventsAuto <==> i == activeIndex)
      && (slides[i].pointerEvents == PointerEventsNone <==> i != activeIndex)
  }

  /**
   * `adjustSlidesZIndex` (lines 522-527): the active slide gets z-index 2 and
   * pointer events, the others z-index 1 and none; heights are untouched.
   */
  method AdjustSlidesZIndex(slides: array<Slide>, activeIndex: int)
    modifies slides
    ensures MarksOnlyActive(slides[..], activeIndex)
    ensures forall i :: 0 <= i < slides.Length ==>
      slides[i].offsetHeight == old(slides[i].offsetHeight) && slides[i].height == old(slides[i].height)
  {
    var i := 0;
    while i < slides.Length
      invariant 0 <= i <= slides.Length
      invariant MarksOnlyActive(slides[..i], activeIndex)
      invariant forall j :: 0 <= j < slides.Length ==>
        slides[j].offsetHeight == old(slides[j].offsetHeight) && slides[j].height == old(slides[j].height)
    {
      slides[i] := slides[i].(
        zIndex := Some(if i == activeIndex then 2 else 1),
        pointerEvents := if i == activeIndex then PointerEventsAuto else PointerEventsNone);
      i := i + 1;
      assert slides[..i] == slides[..i - 1] + [slides[i - 1]];
    }
    assert slides[..] == slides[..slides.Length];
  }

  /** With an active index inside the slides, exactly one slide is on top. */
  lemma {:induction false} ExactlyOneOnTop(slides: seq<Slide>, activeIndex: int)
    requires MarksOnlyActive(slides, activeIndex)
    requires 0 <= activeIndex < |slides|
    ensures |set i | 0 <= i < |slides| && slides[i].zIndex == Some(2)| == 1
  {
    var top := set i | 0 <= i < |slides| && slides[i].zIndex == Some(2);
    assert top == {activeIndex};
  }

  // ---------------------------------------------------------------------------
  // Bullet progress bars (lines 204-214 and 533-559)
  // ---------------------------------------------------------------------------

  /** `autoplay.delay + speed` when both are numbers. */
  function ProgressDuration(params: Fields): Option<real> {
    var autoplay := Lookup(params, "autoplay");
    var speed := Lookup(params, "speed");
    if autoplay.Some? && autoplay.value.Obj? && "delay" in autoplay.value.fields
       && autoplay.value.fields["delay"].Num? && speed.Some? && speed.value.Num?
    then Some(autoplay.value.fields["delay"].n + speed.value.n)
    else None
  }

  /**
   * One bullet after `startBulletProgress`: a bar is reset to 0% without
   * transition, or, for the bullet being filled, runs to 100% over the
   * duration (with no numeric duration the transition stays "none").
   */
  function BulletAfterStart(bullet: Bullet, fill: bool, duration: Option<real>): (r: Bullet)
    ensures r.bar.Some? <==> bullet.bar.Some?
    ensures r.bar.Some? ==> r.bar.value.width == Percent(if fill then 100 else 0)
    ensures r.bar.Some? && !fill ==> r.bar.value.transition == TransitionNone
    ensures r.bar.Some? && fill && duration.Some? ==> r.bar.value.transition == WidthLinear(duration.value)
  {
    if bullet.bar.None? then bullet
    else if fill then
      Bullet(Some(Bar(if duration.Some? then WidthLinear(duration.value) else TransitionNone, Percent(100))))
    else Bullet(Some(Bar(TransitionNone, Percent(0))))
  }

  /**
   * `startBulletProgress` (lines 533-559): with bullet progress on and
   * some bullets, every bar is reset, and with autoplay on the bar of the
   * bullet at `realIndex`, if there is one, is filled.
   */
  method StartBulletProgress(bullets: array<Bullet>, params: Fields, realIndex: nat)
    modifies bullets
    ensures !TruthyOpt(Lookup(params, "bulletProgress")) ==> bullets[..] == old(bullets[..])
    ensures TruthyOpt(Lookup(params, "bulletProgress")) ==>
      forall i :: 0 <= i < bullets.Length ==>
        bullets[i] == BulletAfterStart(old(bullets[i]), i == realIndex && TruthyOpt(Lookup(params, "autoplay")), ProgressDuration(params))
    // with bullet progress on, every bar but the one at realIndex is empty
    ensures TruthyOpt(Lookup(params, "bulletProgress")) ==>
      forall i :: 0 <= i < bullets.Length && i != realIndex && bullets[i].bar.Some? ==> bullets[i].bar.value.width == Percent(0)
  {
    if !TruthyOpt(Lookup(params, "bulletProgress")) {
      return;
    }
    if bullets.Length == 0 {
      return;
    }
    var i := 0;
    while i < bullets.Length
      invariant 0 <= i <= bullets.Length
      invariant forall j :: 0 <= j < i ==> bullets[j] == BulletAfterStart(old(bullets[j]), false, ProgressDuration(params))
      invariant forall j :: i <= j < bullets.Length ==> bullets[j] == old(bullets[j])
    {
      if bullets[i].bar.Some? {
        bullets[i] := Bullet(Some(Bar(TransitionNone, Percent(0))));
      }
      i := i + 1;
    }
    if TruthyOpt(Lookup(params, "autoplay")) {
      if realIndex < bullets.Length {
        if bullets[realIndex].bar.Some? {
          var duration := ProgressDuration(params);
          var transition := if duration.Some? then WidthLinear(duration.value) else TransitionNone;
          bullets[realIndex] := Bullet(Some(Bar(transition, Percent(100))));
        }
      }
    }
  }

  /** A bullet with a `.bullet-progress` bar, a fresh one at 0% if it had none. */
  function WithProgressBar(bullet: Bullet): (r: Bullet)
    ensures r.bar.Some?
    ensures bullet.bar.Some? ==> r == bullet
  {
    if bullet.bar.Some? then bullet else Bullet(Some(Bar(TransitionUnset, Percent(0))))
  }

  /**
   * The bullet-progress injection in `init` (lines 204-214): with bullet
   * progress and pagination on, every bullet without a bar gets one; the
   * result is a fixed point, so a second injection changes nothing.
   */
  method InjectBulletProgress(bullets: array<Bullet>, params: Fields)
    modifies bullets
    ensures TruthyOpt(Lookup(params, "bulletProgress")) && TruthyOpt(Lookup(params, "pagination")) ==>
      forall i :: 0 <= i < bullets.Length ==> bullets[i] == WithProgressBar(old(bullets[i]))
    ensures !(TruthyOpt(Lookup(params, "bulletProgress")) && TruthyOpt(Lookup(params, "pagination"))) ==>
      bullets[..] == old(bullets[..])
    ensures TruthyOpt(Lookup(params, "bulletProgress")) && TruthyOpt(Lookup(params, "pagination")) ==>
      forall i :: 0 <= i < bullets.Length ==> WithProgressBar(bullets[i]) == bullets[i]
  {
    if TruthyOpt(Lookup(params, "bulletProgress")) && TruthyOpt(Lookup(params, "pagination")) {
      var i := 0;
      while i < bullets.Length
        invariant 0 <= i <= bullets.Length
        invariant forall j :: 0 <= j < i ==> bullets[j] == WithProgressBar(old(bullets[j]))
        invariant forall j :: i <= j < bullets.Length ==> bullets[j] == old(bullets[j])
      {
        if bullets[i].bar.None? {
          bullets[i] := Bullet(Some(Bar(TransitionUnset, Percent(0))));
        }
        i := i + 1;
      }
    }
  }
}
