/**
 * The configuration `initSwipers` derives for one slider container: the
 * merge of the defaults with the container's own options, then the
 * breakpoint override, the fade flag, the loop check against the number of
 * slides that can be in view, the single-slide shutdown and the custom
 * parameters copied from the container's attributes.
 */
module SwiperConfig {
  import opened JsValues
  import opened OptionMerge
  import opened InstanceAttributes

  /** A number as `Math.max` can return it. */
  datatype Extended = Finite(x: real) | NegInfinity | NotANumber

  /** What became of one container. */
  datatype Init =
    | Configured(config: Fields)  // the configuration handed to the slider library
    | Skipped                     // no `.swiper` element: a warning, and the container is left alone
    | Threw                       // a TypeError, which ends the whole `forEach` over containers

  // ---------------------------------------------------------------------------
  // The number of slides that can be in view at once
  // ---------------------------------------------------------------------------

  /** A non-empty finite set of reals has a largest element. */
  lemma {:induction false} LargestExists(xs: set<Extended>)
    requires exists e :: e in xs && e.Finite?
    ensures exists m :: m in xs && m.Finite? && forall e :: e in xs && e.Finite? ==> e.x <= m.x
    decreases |xs|
  {
    var y :| y in xs && y.Finite?;
    var rest := xs - {y};
    if exists e :: e in rest && e.Finite? {
      LargestExists(rest);
      var m :| m in rest && m.Finite? && forall e :: e in rest && e.Finite? ==> e.x <= m.x;
      var top := if y.x > m.x then y else m;
      forall e | e in xs && e.Finite? ensures e.x <= top.x {
        if e != y {
          assert e in rest;
        }
      }
      assert top in xs;
    } else {
      assert forall e :: e in xs && e.Finite? ==> e == y;
    }
  }

  /** The finite argument of largest value, when there is a finite argument. */
  function LargestFinite(xs: set<Extended>): (m: Extended)
    requires exists e :: e in xs && e.Finite?
    ensures m in xs && m.Finite?
    ensures forall e :: e in xs && e.Finite? ==> e.x <= m.x
  {
    LargestExists(xs);
    var m :| m in xs && m.Finite? && forall e :: e in xs && e.Finite? ==> e.x <= m.x; m
  }

  /** `Math.max(...xs)`: NaN if any argument is NaN, -Infinity with no finite argument. */
  function MathMax(xs: set<Extended>): (r: Extended)
    ensures r == NotANumber <==> NotANumber in xs
    ensures r == NegInfinity <==> NotANumber !in xs && forall e :: e in xs ==> e == NegInfinity
    ensures r.Finite? ==> r in xs && forall e :: e in xs && e.Finite? ==> e.x <= r.x
  {
    if NotANumber in xs then NotANumber
    else if exists e :: e in xs && e.Finite? then LargestFinite(xs)
    else NegInfinity
  }

  /**
   * ToNumber of a value `Math.max` receives. An array is taken to be NaN
   * (JavaScript turns `[]` into 0 and a one-element array into its element).
   */
  function ToNumber(v: Value, b: Builtins): Extended {
    match v
    case Null => Finite(0.0)
    case Bool(t) => Finite(if t then 1.0 else 0.0)
    case Num(n) => Finite(n)
    case NaN => NotANumber
    case Str(s) => if b.stringToNumber(s).Some? then Finite(b.stringToNumber(s).value) else NotANumber
    case Arr(_) => NotANumber
    case Obj(_) => NotANumber
  }

  /** `Object.values(breakpoints)`, for a truthy breakpoints value. */
  function Entries(breakpoints: Value): set<Value> {
    match breakpoints
    case Obj(m) => m.Values
    case Arr(items) => set v | v in items
    case Str(s) => set i | 0 <= i < |s| :: Str([s[i]])
    case _ => {}
  }

  /** `bp.slidesPerView || 1` for a breakpoint entry that is not null. */
  function EntrySlidesPerView(bp: Value): Value
    requires bp != Null
  {
    if bp.Obj? && "slidesPerView" in bp.fields && Truthy(bp.fields["slidesPerView"])
    then bp.fields["slidesPerView"]
    else Num(1.0)
  }

  /** A `slidesPerView` whose `typeof` is "number", or the string "auto". */
  predicate NumericOrAuto(slidesPerView: Option<Value>) {
    slidesPerView.Some? && (slidesPerView.value.Num? || slidesPerView.value.NaN? || slidesPerView.value == Str("auto"))
  }

  /**
   * `maxSlidesPerView` (lines 143-152): a numeric `slidesPerView` (NaN
   * included, whose `typeof` is "number"); the slide count for "auto"; else
   * the largest `slidesPerView` over the breakpoint entries, where a missing
   * or falsy value counts as 1; else 1. A null entry throws.
   */
  function MaxSlidesPerView(slidesPerView: Option<Value>, breakpoints: Option<Value>, slidesCount: nat, b: Builtins)
    : (r: Completion<Extended>)
    ensures slidesPerView.Some? && slidesPerView.value.Num? ==> r == Normal(Finite(slidesPerView.value.n))
    ensures slidesPerView == Some(NaN) ==> r == Normal(NotANumber)
    ensures slidesPerView == Some(Str("auto")) ==> r == Normal(Finite(slidesCount as real))
    ensures r.Throw? <==> !NumericOrAuto(slidesPerView) && TruthyOpt(breakpoints) && Null in Entries(breakpoints.value)
    ensures !NumericOrAuto(slidesPerView) && !TruthyOpt(breakpoints) ==> r == Normal(Finite(1.0))
    ensures !NumericOrAuto(slidesPerView) && TruthyOpt(breakpoints) && r.Normal? && r.value.Finite? ==>
      && (exists e :: e in Entries(breakpoints.value) && ToNumber(EntrySlidesPerView(e), b) == r.value)
      && (forall e :: e in Entries(breakpoints.value) ==>
            ToNumber(EntrySlidesPerView(e), b).Finite? && ToNumber(EntrySlidesPerView(e), b).x <= r.value.x)
    // without a null entry: NaN when an entry's value is NaN, -Infinity when there are no entries
    ensures !NumericOrAuto(slidesPerView) && TruthyOpt(breakpoints) && Null !in Entries(breakpoints.value) ==>
      && r.Normal?
      && (r.value == NotANumber <==>
            exists e :: e in Entries(breakpoints.value) && ToNumber(EntrySlidesPerView(e), b) == NotANumber)
      && (r.value == NegInfinity <==> Entries(breakpoints.value) == {})
  {
    if slidesPerView.Some? && slidesPerView.value.Num? then Normal(Finite(slidesPerView.value.n))
    else if slidesPerView == Some(NaN) then Normal(NotANumber)
    else if slidesPerView == Some(Str("auto")) then Normal(Finite(slidesCount as real))
    else if TruthyOpt(breakpoints) then
      var entries := Entries(breakpoints.value);
      if Null in entries then Throw
      else
        var values := set e | e in entries :: ToNumber(EntrySlidesPerView(e), b);
        assert entries == {} <==> values == {} by {
          if e :| e in entries {
            assert ToNumber(EntrySlidesPerView(e), b) in values;
          }
        }
        Normal(MathMax(values))
    else Normal(Finite(1.0))
  }

  /** `slidesCount <= maxSlidesPerView`: false against NaN and against -Infinity. */
  predicate SlidesFit(slidesCount: nat, maxSlidesPerView: Extended) {
    maxSlidesPerView.Finite? && slidesCount as real <= maxSlidesPerView.x
  }

  /** A breakpoint entry with a missing or 0 `slidesPerView` counts as one slide in view. */
  lemma MissingOrZeroCountsAsOne(bp: Value, b: Builtins)
    requires bp.Obj?
    requires "slidesPerView" !in bp.fields || bp.fields["slidesPerView"] == Num(0.0)
    ensures ToNumber(EntrySlidesPerView(bp), b) == Finite(1.0)
  {
  }

  // ---------------------------------------------------------------------------
  // The steps of lines 121-178 and 305-308
  // ---------------------------------------------------------------------------

  /** The breakpoints after line 122-124: the instance's own, when truthy, wholesale. */
  function BreakpointsAfterOverride(merged: Fields, instance: InstanceOptions): Option<Value> {
    if TruthyOpt(instance.breakpoints) then instance.breakpoints else Lookup(merged, "breakpoints")
  }

  /** The `fadeEffect` object for a crossfade flag. */
  function FadeEffect(crossFade: bool): Value {
    Obj(map["crossFade" := Bool(crossFade)])
  }

  /** A keyboard setting that, if it is an object, has `enabled` false. */
  predicate KeyboardOff(keyboard: Option<Value>) {
    keyboard.Some? && keyboard.value.Obj? ==>
      "enabled" in keyboard.value.fields && keyboard.value.fields["enabled"] == Bool(false)
  }

  /** `keyboard.enabled = false` when `keyboard` is truthy; only an object keeps the write. */
  function KeyboardDisabled(keyboard: Option<Value>): (r: Option<Value>)
    ensures KeyboardOff(r)
    ensures r.Some? && r.value.Obj? <==> keyboard.Some? && keyboard.value.Obj?
    ensures !(keyboard.Some? && keyboard.value.Obj?) ==> r == keyboard
    ensures keyboard.Some? && keyboard.value.Obj? ==>
      forall j :: j != "enabled" ==> Lookup(r.value.fields, j) == Lookup(keyboard.value.fields, j)
  {
    if keyboard.Some? && keyboard.value.Obj?
    then Some(Obj(keyboard.value.fields["enabled" := Bool(false)]))
    else keyboard
  }

  /** Lines 122-124: truthy instance breakpoints replace the merged ones, with no merge. */
  method OverrideBreakpoints(config: Fields, instance: InstanceOptions) returns (c: Fields)
    ensures TruthyOpt(instance.breakpoints) ==> Lookup(c, "breakpoints") == instance.breakpoints
    ensures !TruthyOpt(instance.breakpoints) ==> c == config
    ensures forall k :: k != "breakpoints" ==> Lookup(c, k) == Lookup(config, k)
  {
    c := config;
    if TruthyOpt(instance.breakpoints) {
      c := c["breakpoints" := instance.breakpoints.value];
    }
  }

  /** Lines 127-131: with the fade effect, `fadeEffect.crossFade` is the truthiness of `crossFade`. */
  method AddFadeEffect(config: Fields) returns (c: Fields)
    ensures Lookup(config, "effect") == Some(Str("fade")) ==>
      Lookup(c, "fadeEffect") == Some(FadeEffect(TruthyOpt(Lookup(config, "crossFade"))))
    ensures Lookup(config, "effect") != Some(Str("fade")) ==> c == config
    ensures forall k :: k != "fadeEffect" ==> Lookup(c, k) == Lookup(config, k)
  {
    c := config;
    if Lookup(c, "effect") == Some(Str("fade")) {
      c := c["fadeEffect" := FadeEffect(TruthyOpt(Lookup(c, "crossFade")))];
    }
  }

  /** Lines 155-157: loop is turned off when every slide fits in view, and otherwise left alone. */
  method DisableLoopIfAllFit(config: Fields, slidesCount: nat, maxSlidesPerView: Extended) returns (c: Fields)
    ensures Lookup(c, "loop") == if SlidesFit(slidesCount, maxSlidesPerView) then Some(Bool(false)) else Lookup(config, "loop")
    ensures forall k :: k != "loop" ==> Lookup(c, k) == Lookup(config, k)
  {
    c := config;
    if SlidesFit(slidesCount, maxSlidesPerView) {
      c := c["loop" := Bool(false)];
    }
  }

  /** The keys the single-slide shutdown may write. */
  const ShutdownKeys: set<string> := {"navigation", "pagination", "autoplay", "allowTouchMove", "keyboard"}

  /**
   * `after` holds the single-slide shutdown of `before`: navigation,
   * pagination, autoplay and touch moves off, and the keyboard disabled.
   */
  predicate ShutDown(after: Fields, before: Fields) {
    && Lookup(after, "navigation") == Some(Bool(false))
    && Lookup(after, "pagination") == Some(Bool(false))
    && Lookup(after, "autoplay") == Some(Bool(false))
    && Lookup(after, "allowTouchMove") == Some(Bool(false))
    && Lookup(after, "keyboard") == KeyboardDisabled(Lookup(before, "keyboard"))
  }

  /**
   * Lines 161-169: with at most one slide, navigation, pagination, autoplay
   * and touch moves are turned off and so is the keyboard, if any; nothing
   * else changes.
   */
  method ShutDownSingleSlide(config: Fields, slidesCount: nat) returns (c: Fields)
    ensures slidesCount <= 1 ==> ShutDown(c, config)
    ensures slidesCount > 1 ==> c == config
    ensures forall k :: k !in ShutdownKeys ==> Lookup(c, k) == Lookup(config, k)
  {
    c := config;
    if slidesCount <= 1 {
      c := c["navigation" := Bool(false)];
      c := c["pagination" := Bool(false)];
      c := c["autoplay" := Bool(false)];
      c := c["allowTouchMove" := Bool(false)];
      if TruthyOpt(Lookup(c, "keyboard")) {
        var keyboard := c["keyboard"];
        if keyboard.Obj? {
          c := c["keyboard" := Obj(keyboard.fields["enabled" := Bool(false)])];
        }
        // on an array the property would be added to it; on a primitive the write is dropped
      }
    }
  }

  /** The parameters lines 175-178 copy from the container's options, `undefined` included. */
  const CustomKeys: set<string> := {"customSlider", "sliderColor", "autoplayInView", "bulletProgress"}

  /** Lines 175-178: the custom parameters are the instance's, whatever the merge made of them. */
  method CopyCustomParameters(config: Fields, instance: InstanceOptions) returns (c: Fields)
    ensures Lookup(c, "customSlider") == instance.customSlider
    ensures Lookup(c, "sliderColor") == instance.sliderColor
    ensures Lookup(c, "autoplayInView") == instance.autoplayInView
    ensures Lookup(c, "bulletProgress") == instance.bulletProgress
    ensures forall k :: k !in CustomKeys ==> Lookup(c, k) == Lookup(config, k)
  {
    c := Assign(config, "customSlider", instance.customSlider);
    c := Assign(c, "sliderColor", instance.sliderColor);
    c := Assign(c, "autoplayInView", instance.autoplayInView);
    c := Assign(c, "bulletProgress", instance.bulletProgress);
  }

  /** `config[key] = v`, where assigning `undefined` leaves the key reading `undefined`. */
  function Assign(config: Fields, key: string, v: Option<Value>): (c: Fields)
    ensures Lookup(c, key) == v
    ensures forall k :: k != key ==> Lookup(c, k) == Lookup(config, k)
  {
    if v.Some? then config[key := v.value] else config - {key}
  }

  /** Lines 305-308: a truthy instance `observer` turns on both DOM observers. */
  method ApplyObserver(config: Fields, instance: InstanceOptions) returns (c: Fields)
    ensures TruthyOpt(instance.observer) ==>
      Lookup(c, "observer") == Some(Bool(true)) && Lookup(c, "observeParents") == Some(Bool(true))
    ensures !TruthyOpt(instance.observer) ==> c == config
    ensures forall k :: k != "observer" && k != "observeParents" ==> Lookup(c, k) == Lookup(config, k)
  {
    c := config;
    if TruthyOpt(instance.observer) {
      c := c["observer" := Bool(true)];
      c := c["observeParents" := Bool(true)];
    }
  }

  /** The keys lines 155-169 may write. */
  const SlideCountKeys: set<string> := {"loop"} + ShutdownKeys

  /** Lines 155-169: the loop check, then the single-slide shutdown. */
  method ApplySlideCount(config: Fields, slidesCount: nat, maxSlidesPerView: Extended) returns (c: Fields)
    ensures Lookup(c, "loop") == if SlidesFit(slidesCount, maxSlidesPerView) then Some(Bool(false)) else Lookup(config, "loop")
    ensures slidesCount <= 1 ==> ShutDown(c, config)
    ensures slidesCount > 1 ==> forall k :: k in ShutdownKeys ==> Lookup(c, k) == Lookup(config, k)
    ensures Lookup(c, "breakpoints") == Lookup(config, "breakpoints")
    ensures Lookup(c, "fadeEffect") == Lookup(config, "fadeEffect")
    ensures forall k :: k !in SlideCountKeys ==> Lookup(c, k) == Lookup(config, k)
  {
    c := DisableLoopIfAllFit(config, slidesCount, maxSlidesPerView);
    c := ShutDownSingleSlide(c, slidesCount);
  }

  /** The keys lines 175-178 and 305-308 may write. */
  const InstanceKeys: set<string> := {"observer", "observeParents"} + CustomKeys

  /**
   * The keys lines 155-169 write, those lines 175-178 and 305-308 write,
   * and the two keys lines 122-131 write are apart: no step overwrites what
   * another one wrote.
   */
  lemma StepKeysApart()
    ensures SlideCountKeys !! InstanceKeys
    ensures "breakpoints" !in SlideCountKeys + InstanceKeys
    ensures "fadeEffect" !in SlideCountKeys + InstanceKeys
    ensures "slidesPerView" !in DerivedKeys
  {
  }

  /** Lines 175-178 and 305-308: the custom parameters, then the observers. */
  method ApplyInstanceParameters(config: Fields, instance: InstanceOptions) returns (c: Fields)
    ensures Lookup(c, "customSlider") == instance.customSlider
    ensures Lookup(c, "sliderColor") == instance.sliderColor
    ensures Lookup(c, "autoplayInView") == instance.autoplayInView
    ensures Lookup(c, "bulletProgress") == instance.bulletProgress
    ensures TruthyOpt(instance.observer) ==>
      Lookup(c, "observer") == Some(Bool(true)) && Lookup(c, "observeParents") == Some(Bool(true))
    ensures !TruthyOpt(instance.observer) ==>
      Lookup(c, "observer") == Lookup(config, "observer") && Lookup(c, "observeParents") == Lookup(config, "observeParents")
    ensures Lookup(c, "loop") == Lookup(config, "loop")
    ensures Lookup(c, "breakpoints") == Lookup(config, "breakpoints")
    ensures Lookup(c, "fadeEffect") == Lookup(config, "fadeEffect")
    ensures forall k :: k in ShutdownKeys ==> Lookup(c, k) == Lookup(config, k)
    ensures forall k :: k !in InstanceKeys ==> Lookup(c, k) == Lookup(config, k)
  {
    StepKeysApart();
    c := CopyCustomParameters(config, instance);
    c := ApplyObserver(c, instance);
  }

  /**
   * Lines 155-178 and 305-308 on a configuration whose maximum number of
   * slides in view is known: the loop check, the single-slide shutdown, the
   * custom parameters and the observers.
   */
  method FinishConfig(config: Fields, instance: InstanceOptions, slidesCount: nat, maxSlidesPerView: Extended)
    returns (c: Fields)
    ensures Lookup(c, "loop") == if SlidesFit(slidesCount, maxSlidesPerView) then Some(Bool(false)) else Lookup(config, "loop")
    ensures slidesCount <= 1 ==> ShutDown(c, config)
    ensures slidesCount > 1 ==> forall k :: k in ShutdownKeys ==> Lookup(c, k) == Lookup(config, k)
    ensures Lookup(c, "customSlider") == instance.customSlider
    ensures Lookup(c, "sliderColor") == instance.sliderColor
    ensures Lookup(c, "autoplayInView") == instance.autoplayInView
    ensures Lookup(c, "bulletProgress") == instance.bulletProgress
    ensures TruthyOpt(instance.observer) ==>
      Lookup(c, "observer") == Some(Bool(true)) && Lookup(c, "observeParents") == Some(Bool(true))
    ensures !TruthyOpt(instance.observer) ==>
      Lookup(c, "observer") == Lookup(config, "observer") && Lookup(c, "observeParents") == Lookup(config, "observeParents")
    ensures Lookup(c, "breakpoints") == Lookup(config, "breakpoints")
    ensures Lookup(c, "fadeEffect") == Lookup(config, "fadeEffect")
    ensures forall k :: k !in SlideCountKeys + InstanceKeys ==> Lookup(c, k) == Lookup(config, k)
  {
    StepKeysApart();
    c := ApplySlideCount(config, slidesCount, maxSlidesPerView);
    c := ApplyInstanceParameters(c, instance);
  }

  /** Lines 121-131 on the merged configuration: the breakpoint override, then the fade flag. */
  method PrepareConfig(merged: Fields, instance: InstanceOptions) returns (c: Fields)
    ensures Lookup(c, "breakpoints") == BreakpointsAfterOverride(merged, instance)
    ensures Lookup(c, "fadeEffect") ==
      if Lookup(merged, "effect") == Some(Str("fade"))
      then Some(FadeEffect(TruthyOpt(Lookup(merged, "crossFade"))))
      else Lookup(merged, "fadeEffect")
    ensures forall k :: k != "breakpoints" && k != "fadeEffect" ==> Lookup(c, k) == Lookup(merged, k)
  {
    c := OverrideBreakpoints(merged, instance);
    c := AddFadeEffect(c);
  }

  /** Every key the derivation may set after the merge. */
  const DerivedKeys: set<string> := {"breakpoints", "fadeEffect"} + SlideCountKeys + InstanceKeys

  /**
   * The body of the `forEach` in `initSwipers` after `mergeOptions` (lines
   * 121-178 and 305-308), for a container with the given options, the
   * outcome of the merge and, when the container has a `.swiper` element,
   * that element's number of slides.
   */
  method DeriveConfig(instance: InstanceOptions, merged: Completion<Fields>, slides: Option<nat>, b: Builtins)
    returns (r: Init)
    ensures merged.Throw? ==> r.Threw?
    ensures r.Skipped? <==> merged.Normal? && slides.None?
    ensures merged.Normal? && slides.Some? ==>
      var m := merged.value;
      var maxSpv := MaxSlidesPerView(Lookup(m, "slidesPerView"), BreakpointsAfterOverride(m, instance), slides.value, b);
      && (r.Threw? <==> maxSpv.Throw?)
      && (r.Configured? ==>
        && Lookup(r.config, "breakpoints") == BreakpointsAfterOverride(m, instance)
        && Lookup(r.config, "fadeEffect") ==
             (if Lookup(m, "effect") == Some(Str("fade"))
              then Some(FadeEffect(TruthyOpt(Lookup(m, "crossFade"))))
              else Lookup(m, "fadeEffect"))
        && Lookup(r.config, "loop") ==
             (if SlidesFit(slides.value, maxSpv.value) then Some(Bool(false)) else Lookup(m, "loop"))
        && (slides.value <= 1 ==> ShutDown(r.config, m))
        && (slides.value > 1 ==> forall k :: k in ShutdownKeys ==> Lookup(r.config, k) == Lookup(m, k))
        && Lookup(r.config, "customSlider") == instance.customSlider
        && Lookup(r.config, "sliderColor") == instance.sliderColor
        && Lookup(r.config, "autoplayInView") == instance.autoplayInView
        && Lookup(r.config, "bulletProgress") == instance.bulletProgress
        && (TruthyOpt(instance.observer) ==>
              Lookup(r.config, "observer") == Some(Bool(true)) && Lookup(r.config, "observeParents") == Some(Bool(true)))
        && (!TruthyOpt(instance.observer) ==>
              && Lookup(r.config, "observer") == Lookup(m, "observer")
              && Lookup(r.config, "observeParents") == Lookup(m, "observeParents"))
        && (forall k :: k !in DerivedKeys ==> Lookup(r.config, k) == Lookup(m, k)))
  {
    if merged.Throw? {
      return Threw;
    }
    StepKeysApart();
    var config := PrepareConfig(merged.value, instance);
    if slides.None? {
      return Skipped;
    }
    var slidesCount := slides.value;
    var maxSlidesPerView := MaxSlidesPerView(Lookup(config, "slidesPerView"), Lookup(config, "breakpoints"), slidesCount, b);
    if maxSlidesPerView.Throw? {
      return Threw;
    }
    config := FinishConfig(config, instance, slidesCount, maxSlidesPerView.value);
    r := Configured(config);
  }

  // ---------------------------------------------------------------------------
  // From attributes to configuration
  // ---------------------------------------------------------------------------

  /**
   * The merge for a single-slide container: shallow options never make it
   * throw, `slidesPerView` 1 wins over the default and the null
   * `breakpoints` deletes the default breakpoints.
   */
  lemma SingleSlideMerge(instance: InstanceOptions, defaults: Fields)
    requires ShallowBesidesBreakpoints(instance)
    requires instance.slidesPerView == Some(Num(1.0)) && instance.breakpoints == Some(Null)
    ensures MergedOptions(defaults, ToBag(instance)).Normal?
    ensures Lookup(MergedOptions(defaults, ToBag(instance)).value, "slidesPerView") == Some(Num(1.0))
    ensures Lookup(MergedOptions(defaults, ToBag(instance)).value, "breakpoints") == None
    ensures instance.loop.Some? && instance.loop.value.Bool? ==>
      Lookup(MergedOptions(defaults, ToBag(instance)).value, "loop") == instance.loop
  {
    var bag := ToBag(instance);
    ShallowBag(instance);
    ShallowSourceNeverThrows(MergeFields(map[], defaults), bag);
    assert Lookup(bag, "slidesPerView") == instance.slidesPerView;
    MergedOptionsOverwrite(defaults, bag, "slidesPerView");
    assert Lookup(bag, "breakpoints") == instance.breakpoints;
    MergedOptionsOverwrite(defaults, bag, "breakpoints");
    if instance.loop.Some? && instance.loop.value.Bool? {
      assert Lookup(bag, "loop") == instance.loop;
      MergedOptionsOverwrite(defaults, bag, "loop");
    }
  }

  /**
   * What the derivation makes of a single-slide container's merge: the
   * maximum number of slides in view is 1, so nothing throws and the loop
   * is turned off exactly when there is at most one slide.
   */
  lemma SingleSlideDerivation(instance: InstanceOptions, defaults: Fields, slidesCount: nat, b: Builtins)
    requires ShallowBesidesBreakpoints(instance)
    requires instance.slidesPerView == Some(Num(1.0)) && instance.breakpoints == Some(Null)
    ensures MergedOptions(defaults, ToBag(instance)).Normal?
    ensures var merged := MergedOptions(defaults, ToBag(instance)).value;
      && BreakpointsAfterOverride(merged, instance) == None
      && Lookup(merged, "slidesPerView") == Some(Num(1.0))
      && MaxSlidesPerView(Lookup(merged, "slidesPerView"), BreakpointsAfterOverride(merged, instance), slidesCount, b)
           == Normal(Finite(1.0))
      && (SlidesFit(slidesCount, Finite(1.0)) <==> slidesCount <= 1)
      && (instance.loop.Some? && instance.loop.value.Bool? ==> Lookup(merged, "loop") == instance.loop)
  {
    SingleSlideMerge(instance, defaults);
  }

  /**
   * One container of `initSwipers` up to the creation of the slider: its
   * attributes are read, merged over the defaults and the configuration
   * derived. `slides` is the slide count of its `.swiper` element, if any.
   */
  method ConfigureContainer(attrs: Attributes, defaults: Fields, slides: Option<nat>, b: Builtins) returns (r: Init)
    // customSlider is always a boolean in the final configuration
    ensures r.Configured? ==>
      Lookup(r.config, "customSlider") == Some(Bool("data-custom-slider" in attrs && attrs["data-custom-slider"] == "true"))
    // a single-slide container is always configured, shows one slide, has no breakpoints,
    // and with at most one slide does not loop and has navigation, pagination, autoplay, touch
    // moves and keyboard off; with more it keeps an explicit loop mode
    ensures SingleSlide(attrs) && slides.Some? ==>
      && r.Configured?
      && Lookup(r.config, "slidesPerView") == Some(Num(1.0))
      && Lookup(r.config, "breakpoints") == None
      && (slides.value <= 1 ==>
            && Lookup(r.config, "loop") == Some(Bool(false))
            && Lookup(r.config, "navigation") == Some(Bool(false))
            && Lookup(r.config, "pagination") == Some(Bool(false))
            && Lookup(r.config, "autoplay") == Some(Bool(false))
            && Lookup(r.config, "allowTouchMove") == Some(Bool(false))
            && KeyboardOff(Lookup(r.config, "keyboard")))
      && (slides.value > 1 && "data-loop-mode" in attrs ==>
            Lookup(r.config, "loop") == Some(Bool(attrs["data-loop-mode"] == "true")))
  {
    var options := GetInstanceOptions(attrs, b);
    var merged := MergeOptions(defaults, ToBag(options));
    r := DeriveConfig(options, merged, slides, b);
    if SingleSlide(attrs) && slides.Some? {
      assert options.slidesPerView == Some(Num(1.0)) && options.breakpoints == Some(Null);
      SingleSlideDerivation(options, defaults, slides.value, b);
      StepKeysApart();
      assert r.Configured?;
    }
  }
}
