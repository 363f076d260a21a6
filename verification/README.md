# swiper-starter: configuration derivation, in Dafny

`js/script.js` of swiper-starter turns each `.slider-main_component`
container of a page into a Swiper slider. It reads the container's `data-*`
attributes into an option bag (`getInstanceOptions`) and deep-merges that
bag over the default options (`mergeOptions`/`deepMerge`). It then adjusts
the merged configuration:

- the instance's own breakpoints replace the merged ones;
- the fade effect gets its crossfade flag;
- loop mode is turned off when every slide fits in view;
- a slider with a single slide loses navigation, pagination, autoplay,
  touch moves and keyboard control;
- the custom parameters and the DOM observers are copied from the
  instance.

While the slider runs, small helpers restyle the slides (equal heights,
full height, stacking of the active slide) and the pagination bullets
(progress bars injected into bullets, reset, then filled for the current
slide).

The model has five modules:

- `JsValues` (`js_values.dfy`) covers the JavaScript values the option
  bags hold.
  - `undefined` is an absent key.
  - `NaN` is kept apart from the numbers.
  - Truthiness follows ToBoolean.
  - The parsing built-ins `parseInt`, `parseFloat`, `JSON.parse` and the
    string-to-number coercion of `Math.max` are given functions, bundled
    in a `Builtins` record.
  - A statement's outcome is a `Completion`: normal, or a thrown TypeError.
- `OptionMerge` (`option_merge.dfy`) covers `deepMerge`.
  - It is a method that walks the source's keys and updates the target.
  - It is proved against the pure functions `MergeFields` (the result)
    and `FieldsThrow` (when it throws).
  - Lemmas state what the merge does to a key, that nulls delete keys,
    and that no null survives.
- `InstanceAttributes` (`instance_options.dfy`) covers `getInstanceOptions`.
  - It builds an `InstanceOptions` record field by field, from a
    `map<string,string>` of attributes.
  - It has one step method per group of attributes.
  - Its postcondition gives every option as a function of the attributes.
- `SwiperConfig` (`swiper_config.dfy`) covers the body of the `forEach` in
  `initSwipers` up to `new Swiper(...)`.
  - It has one step method per adjustment.
  - `maxSlidesPerView` is a pure function with a `Math.max` model, where
    NaN and -Infinity are explicit.
  - `ConfigureContainer` chains attribute parsing, merge and derivation,
    and proves what a single-slide container ends up with.
- `SlideHelpers` (`slide_helpers.dfy`) covers the slide and bullet helpers.
  - They are methods over arrays of style records, updated in place.

## Model

| member | source | states |
|---|---|---|
| OptionMerge.MergeFields | js/script.js:70-89 | the target after one `deepMerge` source: at every key it reads what the per-key rule (delete on null, merge into an object or into `{}`, keep a truthy primitive, overwrite) makes of it |
| OptionMerge.DeepMerge | js/script.js:70-89 | the loop over the source's keys throws exactly when `FieldsThrow` holds, and otherwise returns the target `MergeFields` describes; the loop invariant ties processed keys to the rule and pending keys to the old target |
| OptionMerge.AnyNestedObject | js/script.js:81-82 | reports exactly whether a source merged into a truthy primitive holds a non-empty nested object, the case where the recursion reads a property of `undefined` |
| OptionMerge.MergedOptions | js/script.js:67-68 | `mergeOptions` throws exactly when merging the instance over the copied defaults does; otherwise every key the instance sets to null is absent, and every key comes from the defaults or the instance |
| OptionMerge.MergeOptions | js/script.js:67-68 | the two `deepMerge` calls (defaults into `{}`, then the instance) produce `MergedOptions` |
| OptionMerge.MergeKeepsNoNulls | js/script.js:73-75 | merging any source into a target without nulls leaves no null at any depth of nested objects |
| OptionMerge.MergedOptionsHaveNoNulls | js/script.js:67-89 | in the result of `mergeOptions` no property of any object, at any depth, is null, whatever the defaults and the instance (arrays are copied as they are and not looked into) |
| OptionMerge.CopyIntoEmpty | js/script.js:68 | merging a null-free bag into a fresh `{}` yields that bag exactly; nested objects are rebuilt key by key |
| OptionMerge.MergedOptionsAt | js/script.js:72-85 | for null-free defaults, per key: defaults-only keys keep their default; null deletes; `false`, `0`, `""`, arrays and other non-objects replace; objects merge recursively into an object default, into `{}` over a falsy default, and leave a truthy primitive default alone |
| OptionMerge.MergedOptionsOverwrite | js/script.js:73-84 | for any defaults, a non-object instance value replaces the key and a null one deletes it |
| OptionMerge.ShallowSourceNeverThrows | js/script.js:76-82 | a source whose objects hold no objects never makes `deepMerge` throw |
| OptionMerge.PrototypeAfterNestedMerge | js/script.js:80-82 | as written, an object source value at a key the target does not own is merged into what the prototype lookup finds: at "__proto__" the shared `Object.prototype`, whose fields then include every non-null non-object value of the source |
| OptionMerge.PrototypePollution | js/script.js:80-82 | as written, breakpoints `{"__proto__":{"slidesPerView":9}}` leave a fresh `{}` reading `slidesPerView` as 9 |
| OptionMerge.PrototypeKeyStaysOwn | js/script.js:80-82 | the own-fields merge turns the same "__proto__" object into an own entry of the breakpoints and leaves every other key of them as it was |
| InstanceAttributes.BoolAttr | js/script.js:328-330 | a boolean attribute yields a flat value (true only for the exact string "true"), undefined when absent |
| InstanceAttributes.IntAttr | js/script.js:331-333 | a numeric attribute yields `parseInt` of its value (a number or NaN), never an object |
| InstanceAttributes.FloatAttr | js/script.js:426-430 | a floating-point attribute yields `parseFloat` of its value, never an object |
| InstanceAttributes.StrAttr | js/script.js:334-336 | a string attribute is copied as a string |
| InstanceAttributes.FlagAttr | js/script.js:453-475 | an opt-in switch sets its option only for "true", and never to an object |
| InstanceAttributes.ReplaceQuotes | js/script.js:383-385 | quote rewriting keeps the length, turns each `'` into `"` and leaves every other character, so no `'` remains |
| InstanceAttributes.ReplaceQuotesWithoutQuote | js/script.js:383-385 | on a string with no `'` the rewriting changes nothing, so the `indexOf` guard does not alter the parsed text |
| InstanceAttributes.ToBag | js/script.js:325 | the option bag as a plain object reads, key by key, the options that were set |
| InstanceAttributes.ShallowBag | js/script.js:324-478 | when no option but a shallow `breakpoints` nests objects, the bag holds no object two levels deep |
| InstanceAttributes.ReadBasicToggles | js/script.js:328-339 | loop and crossfade are `true` only for "true", speed is `parseInt` of the duration, effect is copied; absent attributes leave the bag alone |
| InstanceAttributes.ReadAutoplay | js/script.js:340-350 | "false" gives `autoplay: false`; a parseable number gives `{delay, disableOnInteraction: false}`; anything else leaves autoplay unset |
| InstanceAttributes.ReadDisplayToggles | js/script.js:351-361 | full height, progress bar and bullet progress are `true` only for "true" |
| InstanceAttributes.ReadLayout | js/script.js:362-403 | slidesPerView is "auto", a `parseInt` result or 1 for a single slide; breakpoints are null for a single slide or for slides-per-view without breakpoints, otherwise the JSON of the quote-rewritten attribute, and unset when parsing fails |
| InstanceAttributes.ReadCustomSlider | js/script.js:404-409 | customSlider is always defined: `true` only for "true", `false` when absent |
| InstanceAttributes.ReadAdvanced | js/script.js:411-430 | centered slides and watch overflow are `true` only for "true"; slides per group is `parseInt`; resistance ratio is `parseFloat` |
| InstanceAttributes.ReadAdvancedRest | js/script.js:431-450 | insufficient-slides centering, free mode and in-view autoplay are `true` only for "true"; slider colour is copied; the intersection threshold is `parseFloat` |
| InstanceAttributes.ReadSwitches | js/script.js:452-475 | navigation, pagination and touch become `false`, and both observers `true`, only when their attribute is exactly "true" |
| InstanceAttributes.GetInstanceOptions | js/script.js:324-478 | every option of the bag as a function of the attributes, with later writes winning (single slide over slides-per-view); no option but `breakpoints` nests objects |
| SwiperConfig.MathMax | js/script.js:151 | `Math.max` is NaN iff an argument is NaN; it is -Infinity iff every argument is -Infinity (no arguments included); otherwise it is an argument no smaller than any other |
| SwiperConfig.MaxSlidesPerView | js/script.js:142-152 | a numeric slidesPerView is the maximum (NaN included); "auto" gives the slide count; truthy breakpoints throw iff an entry is null, and otherwise give NaN iff some `bp.slidesPerView \|\| 1` is NaN, -Infinity iff there are no entries, and else the largest `bp.slidesPerView \|\| 1` over the entries; otherwise 1 |
| SwiperConfig.MissingOrZeroCountsAsOne | js/script.js:150 | a breakpoint entry with no slidesPerView, or with 0, counts as one slide in view |
| SwiperConfig.OverrideBreakpoints | js/script.js:121-124 | truthy instance breakpoints replace the merged ones exactly, with no merge; no other key changes |
| SwiperConfig.AddFadeEffect | js/script.js:126-131 | with effect "fade", `fadeEffect.crossFade` is the truthiness of crossFade; otherwise nothing changes |
| SwiperConfig.DisableLoopIfAllFit | js/script.js:154-157 | loop becomes false iff the slide count is at most the finite maximum (never against NaN or -Infinity), and is otherwise unchanged; no other key changes |
| SwiperConfig.KeyboardDisabled | js/script.js:166-168 | after `keyboard.enabled = false` an object keyboard (and only an object) has `enabled` false and keeps every other property; any non-object value, an array included, is left as it was |
| SwiperConfig.ShutDownSingleSlide | js/script.js:159-169 | with at most one slide, navigation, pagination, autoplay and touch moves are false and an object keyboard is disabled; no other key changes, and nothing changes with more slides |
| SwiperConfig.CopyCustomParameters | js/script.js:174-178 | customSlider, sliderColor, autoplayInView and bulletProgress are the instance's, undefined included, whatever the merge made of them; no other key changes |
| SwiperConfig.ApplyObserver | js/script.js:305-308 | a truthy instance observer turns on both observers; no other key changes |
| SwiperConfig.ApplySlideCount | js/script.js:154-169 | the loop check then the shutdown: loop is decided by `SlidesFit`; with at most one slide the shutdown holds, with more the shutdown keys are untouched; breakpoints, fadeEffect and every key outside loop and the shutdown keys are untouched |
| SwiperConfig.StepKeysApart | js/script.js:121-178 | the keys the loop check and shutdown write, those the custom parameters and observers write, and breakpoints and fadeEffect are pairwise apart, and slidesPerView is none of them, so no step undoes another |
| SwiperConfig.ApplyInstanceParameters | js/script.js:174-178 | the custom parameters then the observers: all four custom parameters are the instance's, a truthy instance observer turns on both observers and otherwise they are untouched; loop, breakpoints, fadeEffect, the shutdown keys and every key outside those written are untouched |
| SwiperConfig.FinishConfig | js/script.js:154-178 | on a configuration with a known maximum in view: the loop rule, the shutdown (at most one slide) or untouched shutdown keys (more), the four custom parameters, the observer rule; breakpoints, fadeEffect and every other key untouched |
| SwiperConfig.PrepareConfig | js/script.js:121-131 | on the merged configuration: breakpoints follow the override rule, fadeEffect the fade rule, and every other key is the merged one |
| SwiperConfig.DeriveConfig | js/script.js:121-178 | given the outcome of `mergeOptions`: a container throws iff the merge or `maxSlidesPerView` throws, and is skipped iff the merge succeeds and it has no `.swiper` element; configured, its breakpoints follow the override and fadeEffect the fade rule, loop is false iff all slides fit, with at most one slide navigation, pagination, autoplay, touch moves and the keyboard are off and with more they are the merged ones, the four custom parameters are the instance's, the observers follow the instance's observer, and every key the block does not write is the merged one (`on`, written at line 181, and the selectors `adjustSelectors` rewrites at line 172 are outside the model and not covered by this frame) |
| SwiperConfig.SingleSlideMerge | js/script.js:397-403 | a single-slide bag merges without throwing, slidesPerView 1 wins over any default, the null breakpoints delete the default ones, and an explicit loop mode wins |
| SwiperConfig.SingleSlideDerivation | js/script.js:143-157 | for a single-slide container the maximum slides in view is 1, so loop is turned off exactly when there is at most one slide |
| SwiperConfig.ConfigureContainer | js/script.js:118-178 | from attributes to configuration: customSlider is always a boolean; a single-slide container with a `.swiper` element is always configured with one slide in view and no breakpoints; with at most one slide it does not loop and has navigation, pagination, autoplay, touch moves and an object keyboard off, and with more it keeps an explicit loop mode |
| SlideHelpers.TallestOffset | js/script.js:508-510 | the maximum offset height is the height of some slide and no slide is taller |
| SlideHelpers.AdjustSlidesHeight | js/script.js:507-514 | every slide gets the tallest original height in pixels, so all are equally tall and none below its own height; nothing else changes |
| SlideHelpers.SetSlidesFullHeight | js/script.js:516-520 | every slide's height becomes 100% and nothing else changes |
| SlideHelpers.AdjustSlidesZIndex | js/script.js:522-527 | exactly the slide at activeIndex has z-index 2 and pointer events `auto`, every other one 1 and `none`; heights untouched |
| SlideHelpers.ExactlyOneOnTop | js/script.js:522-527 | with an active index inside the slides, exactly one slide is on top |
| SlideHelpers.BulletAfterStart | js/script.js:538-558 | a bullet keeps having a bar iff it had one; the bar is at 0% with no transition, or at 100% with the `delay + speed` transition for the bullet being filled |
| SlideHelpers.StartBulletProgress | js/script.js:533-559 | with bullet progress off nothing changes; otherwise every bar is reset and, with autoplay on, only the bar at realIndex (if any) is filled, so every other bar is empty |
| SlideHelpers.WithProgressBar | js/script.js:207-211 | a bullet ends up with a bar, and one that had a bar keeps it as it was |
| SlideHelpers.InjectBulletProgress | js/script.js:204-214 | with bullet progress and pagination on, every bullet without a bar gets a 0% bar and the result is a fixed point (a second injection changes nothing); otherwise nothing changes |

Line 393 of the script has no effect on an option bag whose prototype
holds no `slidesPerView`. It nulls the breakpoints when slides-per-view is
set, not "auto", and no breakpoints attribute is present. Line 371 has
already nulled them in every such case, "auto" included. `ReadLayout`
models both writes. With a polluted prototype (see Findings) line 393
fires on its own.

## Left out

- The Swiper library is outside the model. That covers `new Swiper(...)`,
  its normalisation of the parameters, the `swiper.on` event handlers and
  their callbacks (lines 181-298, 596-613), and `IntersectionObserver`
  autoplay (lines 220-237).
- The `forEach` over all containers is not modelled. A `Threw` outcome
  for one container stands for the TypeError that stops the remaining
  containers too.
- `DOMContentLoaded` and the global `window.SwiperDefaults` hook
  (lines 95-100, 640) are not modelled. The defaults are a parameter of
  every member, which covers defaults already merged with the hook.
- The built-in default values (lines 5-62) are not restated. No property
  here depends on them beyond what the `defaults` parameter allows.
- The reduced-motion check (lines 110-113) would only set the default
  autoplay to false before the merge, which a caller can do to `defaults`.
- `adjustSelectors` (lines 483-502) and the `querySelector` lookups are not
  modelled. A container's `.swiper` element is an optional slide count, and
  its bullets are an array.
- The reflows `void x.offsetWidth` (lines 543, 566) are not modelled. They
  have no effect on the styles.
- The custom range slider (`setupCustomSlider`, `syncCustomSlider`) and
  `startTopLevelProgress` are left out. They are percentage arithmetic on
  floating point over DOM elements.
- Numbers are reals, not doubles, and `parseInt`, `parseFloat`,
  `JSON.parse` and string-to-number are given functions. The ECMAScript
  parsing and RFC 8259 grammars are not restated. Positive and negative
  Infinity from JSON (`1e999`) or string coercion ("Infinity") are not
  represented. Such a `slidesPerView` would make `Math.max` Infinity at
  line 151, and line 155 would then always turn loop off.
- Values have no identity. Arrays that line 84 copies by reference, and
  the breakpoints object that line 123 shares with the option bag, are
  not told apart from copies. Nothing in the modelled lines mutates them
  afterwards.
- InstanceAttributes.ReadLayout requires slidesPerView and breakpoints to
  be unset, as they always are at that point of `getInstanceOptions`.
- OptionMerge.MergeFields: an object merged into an array target leaves
  the array as it is. JavaScript would add the properties to the array
  object. When an element of that array is a truthy primitive and the
  source holds a non-empty object at its index, JavaScript throws a
  TypeError there, which the model does not.
- OptionMerge.MergeFields: a truthy primitive target is kept. Property
  reads on primitives (`"abc"[0]`, prototype properties) are taken to be
  `undefined`.
- OptionMerge.MergeFields: only own fields of an object target are read.
  JavaScript also reads inherited members of `Object.prototype` at lines
  81-82. An object source value at "__proto__", "constructor",
  "toString" or another inherited name is merged into the inherited
  value, and the target gets no own entry. The model gives the target a
  fresh own entry instead. `PrototypeAfterNestedMerge` models the
  "__proto__" case as written; see Findings.
- SwiperConfig.KeyboardDisabled and SwiperConfig.ShutDownSingleSlide: an array `keyboard` is kept unchanged.
  JavaScript would add an `enabled` property to the array object.
- SwiperConfig.ToNumber: an array argument of `Math.max` counts as NaN.
  JavaScript turns `[]` into 0 and `[x]` into the number its string form
  reads as (`[null]` gives 0, `["2"]` gives 2, `[true]` gives NaN).
- SwiperConfig.EntrySlidesPerView: only an object entry can supply
  `slidesPerView`. A property read on a string or array entry is taken to
  be `undefined`.
- SlideHelpers.StartBulletProgress: the transition duration is modelled
  only when `autoplay.delay` and `speed` are both numbers. Otherwise the
  transition stays "none", and the string concatenation JavaScript would
  perform is not modelled.
- SlideHelpers.AdjustSlidesHeight: offset heights are whole pixels.
- Logging is not modelled: `console.warn` (line 135) and `console.error`
  (line 389) have no effect on the configuration.
- Style writes are modelled only for the properties the helpers set.
  Other CSS is not represented.
- The shared `Object.prototype` is modelled only by
  `PrototypeAfterNestedMerge`. The rest of the model does not carry
  prototype state from one container to the next.
- The assertions of `tests/loop-mode.test.js` are not modelled. They rely
  on `window.initSwipers`, `container._swiperConfig` and a `watchOverflow`
  rewrite, none of which the script has.

## Findings

| source | as written | input that shows it | evidently intended | confidence | as-written member | corrected member |
|---|---|---|---|---|---|---|
| js/script.js:80-82 | `!target[key]` and `deepMerge(target[key], ...)` read inherited members. At "__proto__" they find `Object.prototype` itself, so a nested "__proto__" object from `JSON.parse` is merged into the prototype that every plain object shares | `data-breakpoints='{"__proto__":{"slidesPerView":9}}'`: afterwards every plain object reads `slidesPerView` as 9, and line 393 deletes the default breakpoints of every later container without that attribute | the merge reads and writes the target's own properties only, and nothing outside the target changes | not executed | OptionMerge.PrototypePollution | OptionMerge.PrototypeKeyStaysOwn |
