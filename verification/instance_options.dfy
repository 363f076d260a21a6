/**
 * `getInstanceOptions(container)`: the partial option bag a slider
 * container's `data-*` attributes ask for. The container is its attribute
 * map; an attribute that is present maps to its string value.
 */
module InstanceAttributes {
  import opened JsValues

  type Attributes = map<string, string>

  /** A boolean attribute: present, it is true for exactly the string "true". */
  function BoolAttr(attrs: Attributes, name: string): (r: Option<Value>)
    ensures Shallow(r)
  {
    if name in attrs then Some(Bool(attrs[name] == "true")) else None
  }

  /** `parseInt(s, 10)` as a value: a number, or NaN. */
  function IntValue(b: Builtins, s: string): Value {
    match b.parseInt(s)
    case Some(n) => Num(n as real)
    case None => NaN
  }

  /** `parseFloat(s)` as a value: a number, or NaN. */
  function FloatValue(b: Builtins, s: string): Value {
    match b.parseFloat(s)
    case Some(x) => Num(x)
    case None => NaN
  }

  /** A numeric attribute: present, it is `parseInt` of its value. */
  function IntAttr(b: Builtins, attrs: Attributes, name: string): (r: Option<Value>)
    ensures Shallow(r)
  {
    if name in attrs then Some(IntValue(b, attrs[name])) else None
  }

  /** A floating-point attribute: present, it is `parseFloat` of its value. */
  function FloatAttr(b: Builtins, attrs: Attributes, name: string): (r: Option<Value>)
    ensures Shallow(r)
  {
    if name in attrs then Some(FloatValue(b, attrs[name])) else None
  }

  /** A string attribute, copied as it is. */
  function StrAttr(attrs: Attributes, name: string): (r: Option<Value>)
    ensures Shallow(r)
  {
    if name in attrs then Some(Str(attrs[name])) else None
  }

  /** An opt-in attribute: the option is set to `v` only when the attribute is exactly "true". */
  function FlagAttr(attrs: Attributes, name: string, v: Value): (r: Option<Value>)
    ensures !v.Obj? ==> Shallow(r)
  {
    if name in attrs && attrs[name] == "true" then Some(v) else None
  }

  /** `data-single-slide="true"`. */
  predicate SingleSlide(attrs: Attributes) {
    "data-single-slide" in attrs && attrs["data-single-slide"] == "true"
  }

  /** The autoplay object a numeric `data-autoplay` stands for. */
  function AutoplayWithDelay(delay: int): Value {
    Obj(map["delay" := Num(delay as real), "disableOnInteraction" := Bool(false)])
  }

  /** `s.replace(/'/g, '"')`: every single quote becomes a double quote. */
  function ReplaceQuotes(s: string): (r: string)
    ensures |r| == |s|
    ensures forall i :: 0 <= i < |s| ==> r[i] == if s[i] == '\'' then '"' else s[i]
    ensures '\'' !in r
  {
    if s == [] then []
    else [if s[0] == '\'' then '"' else s[0]] + ReplaceQuotes(s[1..])
  }

  /** The `indexOf("'") !== -1` guard in front of the replacement changes nothing. */
  lemma {:induction false} ReplaceQuotesWithoutQuote(s: string)
    requires '\'' !in s
    ensures ReplaceQuotes(s) == s
  {
    if s != [] {
      ReplaceQuotesWithoutQuote(s[1..]);
    }
  }

  /**
   * The option bag `getInstanceOptions` builds: one entry per option it can
   * set, None while that property is `undefined`.
   */
  datatype InstanceOptions = InstanceOptions(
    loop: Option<Value>,
    speed: Option<Value>,
    effect: Option<Value>,
    crossFade: Option<Value>,
    autoplay: Option<Value>,
    fullHeight: Option<Value>,
    progressBar: Option<Value>,
    bulletProgress: Option<Value>,
    slidesPerView: Option<Value>,
    breakpoints: Option<Value>,
    spaceBetween: Option<Value>,
    customSlider: Option<Value>,
    centeredSlides: Option<Value>,
    slidesPerGroup: Option<Value>,
    watchOverflow: Option<Value>,
    resistanceRatio: Option<Value>,
    centerInsufficientSlides: Option<Value>,
    freeMode: Option<Value>,
    sliderColor: Option<Value>,
    autoplayInView: Option<Value>,
    intersectionThreshold: Option<Value>,
    navigation: Option<Value>,
    pagination: Option<Value>,
    allowTouchMove: Option<Value>,
    observer: Option<Value>,
    observeParents: Option<Value>)

  /** The bag before any attribute has been read: `{}`. */
  const NoOptions: InstanceOptions :=
    InstanceOptions(None, None, None, None, None, None, None, None, None, None, None, None, None, None, None, None, None, None, None, None, None, None, None, None, None, None)

  /** Reading `options[key]`. */
  function Field(o: InstanceOptions, key: string): Option<Value> {
    if key == "loop" then o.loop
    else if key == "speed" then o.speed
    else if key == "effect" then o.effect
    else if key == "crossFade" then o.crossFade
    else if key == "autoplay" then o.autoplay
    else if key == "fullHeight" then o.fullHeight
    else if key == "progressBar" then o.progressBar
    else if key == "bulletProgress" then o.bulletProgress
    else if key == "slidesPerView" then o.slidesPerView
    else if key == "breakpoints" then o.breakpoints
    else if key == "spaceBetween" then o.spaceBetween
    else if key == "customSlider" then o.customSlider
    else if key == "centeredSlides" then o.centeredSlides
    else if key == "slidesPerGroup" then o.slidesPerGroup
    else if key == "watchOverflow" then o.watchOverflow
    else if key == "resistanceRatio" then o.resistanceRatio
    else if key == "centerInsufficientSlides" then o.centerInsufficientSlides
    else if key == "freeMode" then o.freeMode
    else if key == "sliderColor" then o.sliderColor
    else if key == "autoplayInView" then o.autoplayInView
    else if key == "intersectionThreshold" then o.intersectionThreshold
    else if key == "navigation" then o.navigation
    else if key == "pagination" then o.pagination
    else if key == "allowTouchMove" then o.allowTouchMove
    else if key == "observer" then o.observer
    else if key == "observeParents" then o.observeParents
    else None
  }

  /** Every key `getInstanceOptions` can set. */
  const OptionKeys: set<string> := {
    "loop", "speed", "effect", "crossFade", "autoplay", "fullHeight", "progressBar",
    "bulletProgress", "slidesPerView", "breakpoints", "spaceBetween", "customSlider",
    "centeredSlides", "slidesPerGroup", "watchOverflow", "resistanceRatio",
    "centerInsufficientSlides", "freeMode", "sliderColor", "autoplayInView",
    "intersectionThreshold", "navigation", "pagination", "allowTouchMove",
    "observer", "observeParents"
  }

  /** The bag as a plain object, the form `mergeOptions` receives. */
  function ToBag(o: InstanceOptions): (bag: Fields)
    ensures forall k :: Lookup(bag, k) == Field(o, k)
  {
    map k | k in OptionKeys && Field(o, k).Some? :: Field(o, k).value
  }

  /** An option value with no object nested inside an object. */
  predicate Shallow(v: Option<Value>) {
    v.None? || !v.value.Obj? || forall j :: j in v.value.fields ==> !v.value.fields[j].Obj?
  }

  /** Only `breakpoints`, the one option parsed from JSON, may hold nested objects. */
  predicate ShallowBesidesBreakpoints(o: InstanceOptions) {
    && Shallow(o.loop) && Shallow(o.speed) && Shallow(o.effect) && Shallow(o.crossFade)
    && Shallow(o.autoplay) && Shallow(o.fullHeight) && Shallow(o.progressBar) && Shallow(o.bulletProgress)
    && Shallow(o.slidesPerView) && Shallow(o.spaceBetween) && Shallow(o.customSlider)
    && Shallow(o.centeredSlides) && Shallow(o.slidesPerGroup) && Shallow(o.watchOverflow)
    && Shallow(o.resistanceRatio) && Shallow(o.centerInsufficientSlides) && Shallow(o.freeMode)
    && Shallow(o.sliderColor) && Shallow(o.autoplayInView) && Shallow(o.intersectionThreshold)
    && Shallow(o.navigation) && Shallow(o.pagination) && Shallow(o.allowTouchMove)
    && Shallow(o.observer) && Shallow(o.observeParents)
  }

  /** A bag whose options are all shallow has no object nested two levels deep. */
  lemma ShallowBag(o: InstanceOptions)
    requires ShallowBesidesBreakpoints(o) && Shallow(o.breakpoints)
    ensures forall k :: k in ToBag(o) && ToBag(o)[k].Obj? ==>
      forall j :: j in ToBag(o)[k].fields ==> !ToBag(o)[k].fields[j].Obj?
  {
    var bag := ToBag(o);
    forall k | k in bag
      ensures Shallow(Some(bag[k]))
    {
      assert Lookup(bag, k) == Field(o, k);
    }
  }

  /** Present, the attribute decides the option by `rule`; absent, the option keeps `current`. */
  function OrKeep(rule: Option<Value>, current: Option<Value>): Option<Value> {
    if rule.Some? then rule else current
  }

  /** Loop mode, duration, effect and crossfade. */
  method ReadBasicToggles(options: InstanceOptions, attrs: Attributes, b: Builtins) returns (o: InstanceOptions)
    ensures o == options.(
      loop := OrKeep(BoolAttr(attrs, "data-loop-mode"), options.loop),
      speed := OrKeep(IntAttr(b, attrs, "data-slider-duration"), options.speed),
      effect := OrKeep(StrAttr(attrs, "data-effect"), options.effect),
      crossFade := OrKeep(BoolAttr(attrs, "data-crossfade"), options.crossFade))
  {
    o := options;
    if "data-loop-mode" in attrs {
      o := o.(loop := Some(Bool(attrs["data-loop-mode"] == "true")));
    }
    if "data-slider-duration" in attrs {
      o := o.(speed := Some(IntValue(b, attrs["data-slider-duration"])));
    }
    if "data-effect" in attrs {
      o := o.(effect := Some(Str(attrs["data-effect"])));
    }
    if "data-crossfade" in attrs {
      o := o.(crossFade := Some(Bool(attrs["data-crossfade"] == "true")));
    }
  }

  /**
   * `data-autoplay`: "false" turns autoplay off, a number gives the delay
   * (with `disableOnInteraction: false`), anything else leaves it as it was.
   */
  method ReadAutoplay(options: InstanceOptions, attrs: Attributes, b: Builtins) returns (o: InstanceOptions)
    ensures o == options.(autoplay :=
      if "data-autoplay" !in attrs then options.autoplay
      else if attrs["data-autoplay"] == "false" then Some(Bool(false))
      else if b.parseInt(attrs["data-autoplay"]).Some? then Some(AutoplayWithDelay(b.parseInt(attrs["data-autoplay"]).value))
      else options.autoplay)
  {
    o := options;
    if "data-autoplay" in attrs {
      var autoplayValue := attrs["data-autoplay"];
      if autoplayValue == "false" {
        o := o.(autoplay := Some(Bool(false)));
      } else {
        var delay := b.parseInt(autoplayValue);
        if delay.Some? {
          o := o.(autoplay := Some(AutoplayWithDelay(delay.value)));
        }
      }
    }
  }

  /** Full height and the two progress indicators. */
  method ReadDisplayToggles(options: InstanceOptions, attrs: Attributes) returns (o: InstanceOptions)
    ensures o == options.(
      fullHeight := OrKeep(BoolAttr(attrs, "data-full-height"), options.fullHeight),
      progressBar := OrKeep(BoolAttr(attrs, "data-progress-bar"), options.progressBar),
      bulletProgress := OrKeep(BoolAttr(attrs, "data-bullet-progress"), options.bulletProgress))
  {
    o := options;
    if "data-full-height" in attrs {
      o := o.(fullHeight := Some(Bool(attrs["data-full-height"] == "true")));
    }
    if "data-progress-bar" in attrs {
      o := o.(progressBar := Some(Bool(attrs["data-progress-bar"] == "true")));
    }
    if "data-bullet-progress" in attrs {
      o := o.(bulletProgress := Some(Bool(attrs["data-bullet-progress"] == "true")));
    }
  }

  /**
   * Slides per view, space between and breakpoints, then the single-slide
   * override. Breakpoints become null when slides per view is given without
   * breakpoints (an "auto" value included, see line 371) and on a single
   * slide; breakpoints that fail to parse leave the option as it was.
   */
  method ReadLayout(options: InstanceOptions, attrs: Attributes, b: Builtins) returns (o: InstanceOptions)
    requires options.slidesPerView.None? && options.breakpoints.None?
    ensures o == options.(
      spaceBetween := OrKeep(IntAttr(b, attrs, "data-space-between"), options.spaceBetween),
      slidesPerView :=
        if SingleSlide(attrs) then Some(Num(1.0))
        else if "data-slides-per-view" !in attrs then None
        else if attrs["data-slides-per-view"] == "auto" then Some(Str("auto"))
        else Some(IntValue(b, attrs["data-slides-per-view"])),
      breakpoints :=
        if SingleSlide(attrs) then Some(Null)
        else if "data-breakpoints" in attrs then b.parseJson(ReplaceQuotes(attrs["data-breakpoints"]))
        else if "data-slides-per-view" in attrs then Some(Null)
        else None)
  {
    o := options;
    if "data-slides-per-view" in attrs {
      var spv := attrs["data-slides-per-view"];
      if spv == "auto" {
        o := o.(slidesPerView := Some(Str("auto")));
      } else {
        o := o.(slidesPerView := Some(IntValue(b, spv)));
      }
      if "data-breakpoints" !in attrs {
        o := o.(breakpoints := Some(Null));
      }
    }
    if "data-space-between" in attrs {
      o := o.(spaceBetween := Some(IntValue(b, attrs["data-space-between"])));
    }
    if "data-breakpoints" in attrs {
      var bpAttr := attrs["data-breakpoints"];
      if '\'' in bpAttr {
        bpAttr := ReplaceQuotes(bpAttr);
      } else {
        ReplaceQuotesWithoutQuote(bpAttr);
      }
      var parsed := b.parseJson(bpAttr);
      if parsed.Some? {
        o := o.(breakpoints := Some(parsed.value));
      }
      // a JSON syntax error is logged and the breakpoints stay as they were
    } else {
      if o.slidesPerView.Some? && o.slidesPerView.value != Str("auto") {
        o := o.(breakpoints := Some(Null));
      }
    }
    if SingleSlide(attrs) {
      o := o.(slidesPerView := Some(Num(1.0)));
      o := o.(breakpoints := Some(Null));
    }
  }

  /** The custom slider flag, defined on every container. */
  method ReadCustomSlider(options: InstanceOptions, attrs: Attributes) returns (o: InstanceOptions)
    ensures o == options.(customSlider := Some(Bool("data-custom-slider" in attrs && attrs["data-custom-slider"] == "true")))
  {
    o := options;
    if "data-custom-slider" in attrs {
      o := o.(customSlider := Some(Bool(attrs["data-custom-slider"] == "true")));
    } else {
      o := o.(customSlider := Some(Bool(false)));
    }
  }

  /** The advanced attributes from centered slides to resistance ratio. */
  method ReadAdvanced(options: InstanceOptions, attrs: Attributes, b: Builtins) returns (o: InstanceOptions)
    ensures o == options.(
      centeredSlides := OrKeep(BoolAttr(attrs, "data-centered-slides"), options.centeredSlides),
      slidesPerGroup := OrKeep(IntAttr(b, attrs, "data-slides-per-group"), options.slidesPerGroup),
      watchOverflow := OrKeep(BoolAttr(attrs, "data-watch-overflow"), options.watchOverflow),
      resistanceRatio := OrKeep(FloatAttr(b, attrs, "data-resistance-ratio"), options.resistanceRatio))
  {
    o := options;
    if "data-centered-slides" in attrs {
      o := o.(centeredSlides := Some(Bool(attrs["data-centered-slides"] == "true")));
    }
    if "data-slides-per-group" in attrs {
      o := o.(slidesPerGroup := Some(IntValue(b, attrs["data-slides-per-group"])));
    }
    if "data-watch-overflow" in attrs {
      o := o.(watchOverflow := Some(Bool(attrs["data-watch-overflow"] == "true")));
    }
    if "data-resistance-ratio" in attrs {
      o := o.(resistanceRatio := Some(FloatValue(b, attrs["data-resistance-ratio"])));
    }
  }

  /** The advanced attributes from insufficient-slides centering to the intersection threshold. */
  method ReadAdvancedRest(options: InstanceOptions, attrs: Attributes, b: Builtins) returns (o: InstanceOptions)
    ensures o == options.(
      centerInsufficientSlides := OrKeep(BoolAttr(attrs, "data-center-insufficient-slides"), options.centerInsufficientSlides),
      freeMode := OrKeep(BoolAttr(attrs, "data-free-mode"), options.freeMode),
      sliderColor := OrKeep(StrAttr(attrs, "data-slider-color"), options.sliderColor),
      autoplayInView := OrKeep(BoolAttr(attrs, "data-autoplay-inview"), options.autoplayInView),
      intersectionThreshold := OrKeep(FloatAttr(b, attrs, "data-intersection-threshold"), options.intersectionThreshold))
  {
    o := options;
    if "data-center-insufficient-slides" in attrs {
      o := o.(centerInsufficientSlides := Some(Bool(attrs["data-center-insufficient-slides"] == "true")));
    }
    if "data-free-mode" in attrs {
      o := o.(freeMode := Some(Bool(attrs["data-free-mode"] == "true")));
    }
    if "data-slider-color" in attrs {
      o := o.(sliderColor := Some(Str(attrs["data-slider-color"])));
    }
    if "data-autoplay-inview" in attrs {
      o := o.(autoplayInView := Some(Bool(attrs["data-autoplay-inview"] == "true")));
    }
    if "data-intersection-threshold" in attrs {
      o := o.(intersectionThreshold := Some(FloatValue(b, attrs["data-intersection-threshold"])));
    }
  }

  /** The opt-in switches: disabling navigation, pagination or touch, and watching the DOM. */
  method ReadSwitches(options: InstanceOptions, attrs: Attributes) returns (o: InstanceOptions)
    ensures o == options.(
      navigation := OrKeep(FlagAttr(attrs, "data-disable-navigation", Bool(false)), options.navigation),
      pagination := OrKeep(FlagAttr(attrs, "data-disable-pagination", Bool(false)), options.pagination),
      allowTouchMove := OrKeep(FlagAttr(attrs, "data-disable-touch", Bool(false)), options.allowTouchMove),
      observer := OrKeep(FlagAttr(attrs, "data-observer", Bool(true)), options.observer),
      observeParents := OrKeep(FlagAttr(attrs, "data-observer", Bool(true)), options.observeParents))
  {
    o := options;
    if "data-disable-navigation" in attrs {
      if attrs["data-disable-navigation"] == "true" {
        o := o.(navigation := Some(Bool(false)));
      }
    }
    if "data-disable-pagination" in attrs {
      if attrs["data-disable-pagination"] == "true" {
        o := o.(pagination := Some(Bool(false)));
      }
    }
    if "data-disable-touch" in attrs {
      if attrs["data-disable-touch"] == "true" {
        o := o.(allowTouchMove := Some(Bool(false)));
      }
    }
    if "data-observer" in attrs {
      if attrs["data-observer"] == "true" {
        o := o.(observer := Some(Bool(true)));
        o := o.(observeParents := Some(Bool(true)));
      }
    }
  }

  /**
   * `getInstanceOptions(container)`: every option is stated by the
   * attribute rule that decides its final value.
   */
  method GetInstanceOptions(attrs: Attributes, b: Builtins) returns (options: InstanceOptions)
    // boolean toggles: true only for the exact string "true"
    ensures options.loop == BoolAttr(attrs, "data-loop-mode")
    ensures options.crossFade == BoolAttr(attrs, "data-crossfade")
    ensures options.fullHeight == BoolAttr(attrs, "data-full-height")
    ensures options.progressBar == BoolAttr(attrs, "data-progress-bar")
    ensures options.bulletProgress == BoolAttr(attrs, "data-bullet-progress")
    ensures options.centeredSlides == BoolAttr(attrs, "data-centered-slides")
    ensures options.watchOverflow == BoolAttr(attrs, "data-watch-overflow")
    ensures options.centerInsufficientSlides == BoolAttr(attrs, "data-center-insufficient-slides")
    ensures options.freeMode == BoolAttr(attrs, "data-free-mode")
    ensures options.autoplayInView == BoolAttr(attrs, "data-autoplay-inview")
    // customSlider is always defined
    ensures options.customSlider == Some(Bool("data-custom-slider" in attrs && attrs["data-custom-slider"] == "true"))
    // numbers and strings
    ensures options.speed == IntAttr(b, attrs, "data-slider-duration")
    ensures options.spaceBetween == IntAttr(b, attrs, "data-space-between")
    ensures options.slidesPerGroup == IntAttr(b, attrs, "data-slides-per-group")
    ensures options.resistanceRatio == FloatAttr(b, attrs, "data-resistance-ratio")
    ensures options.intersectionThreshold == FloatAttr(b, attrs, "data-intersection-threshold")
    ensures options.effect == StrAttr(attrs, "data-effect")
    ensures options.sliderColor == StrAttr(attrs, "data-slider-color")
    // autoplay: "false" turns it off, a number gives the delay, anything else leaves it unset
    ensures options.autoplay ==
      if "data-autoplay" !in attrs then None
      else if attrs["data-autoplay"] == "false" then Some(Bool(false))
      else if b.parseInt(attrs["data-autoplay"]).Some? then Some(AutoplayWithDelay(b.parseInt(attrs["data-autoplay"]).value))
      else None
    // slidesPerView and breakpoints (later writes win)
    ensures options.slidesPerView ==
      if SingleSlide(attrs) then Some(Num(1.0))
      else if "data-slides-per-view" !in attrs then None
      else if attrs["data-slides-per-view"] == "auto" then Some(Str("auto"))
      else Some(IntValue(b, attrs["data-slides-per-view"]))
    ensures options.breakpoints ==
      if SingleSlide(attrs) then Some(Null)
      else if "data-breakpoints" in attrs then b.parseJson(ReplaceQuotes(attrs["data-breakpoints"]))
      else if "data-slides-per-view" in attrs then Some(Null)
      else None
    // opt-in switches
    ensures options.navigation == FlagAttr(attrs, "data-disable-navigation", Bool(false))
    ensures options.pagination == FlagAttr(attrs, "data-disable-pagination", Bool(false))
    ensures options.allowTouchMove == FlagAttr(attrs, "data-disable-touch", Bool(false))
    ensures options.observer == FlagAttr(attrs, "data-observer", Bool(true))
    ensures options.observeParents == FlagAttr(attrs, "data-observer", Bool(true))
    ensures ShallowBesidesBreakpoints(options)
  {
    options := NoOptions;
    options := ReadBasicToggles(options, attrs, b);
    options := ReadAutoplay(options, attrs, b);
    options := ReadDisplayToggles(options, attrs);
    options := ReadLayout(options, attrs, b);
    options := ReadCustomSlider(options, attrs);
    options := ReadAdvanced(options, attrs, b);
    options := ReadAdvancedRest(options, attrs, b);
    options := ReadSwitches(options, attrs);
  }
}
