/**
  Darkmode: a page-wide colour inversion stylesheet, its presets, and the
  per-element darkmode rules, all injected as style text in the head.

  Numeric options (`invert`, `rotation`) only ever reach a template
  literal, so they are carried as their decimal rendering.
 */
module Darkmode {
  import opened Js
  import Strings
  import Dom
  import Collect
  import Style

  const Indent8 := "        "
  const Indent12 := "            "
  const Indent20 := "                    "
  const Indent24 := "                        "

  const DefaultTags := "html, img, video, iframe"
  const Background := "body { background: white; }"

  function Invert(invert: string): string
  {
    "invert(" + invert + ")"
  }

  /** The inversion rule for `tags`, with any extra filters after `invert(…)`. */
  function FilterRule(invert: string, tags: string, additionalFilters: string): string
  {
    tags + " { filter: " + Invert(invert) + " " + additionalFilters + "; }"
  }

  /** `Darkmode.getCssString`: the template literal, line breaks and indentation included. */
  function PageCss(invert: string := "1", tags: string := DefaultTags, additionalFilters: string := ""): (r: string)
    ensures |r| >= 1 + |Indent12| + |Background|
    ensures r[..1 + |Indent12| + |Background|] == "\n" + Indent12 + Background
    ensures Strings.EndsWith(r, FilterRule(invert, tags, additionalFilters) + "\n" + Indent8)
  {
    "\n" + Indent12 + Background + "\n" + Indent12 + FilterRule(invert, tags, additionalFilters) + "\n" + Indent8
  }

  /**
    The page stylesheet always holds the white background and the inversion
    rule, and the rule holds the inversion and the additional filters.
   */
  lemma PageCssRules(invert: string, tags: string, additionalFilters: string)
    ensures Strings.Includes(PageCss(invert, tags, additionalFilters), Background)
    ensures Strings.Includes(PageCss(invert, tags, additionalFilters), FilterRule(invert, tags, additionalFilters))
    ensures Strings.Includes(PageCss(invert, tags, additionalFilters), Invert(invert))
    ensures Strings.Includes(PageCss(invert, tags, additionalFilters), additionalFilters)
  {
    var rule := FilterRule(invert, tags, additionalFilters);
    Strings.IncludesSelf(Background);
    Strings.IncludesRight("\n" + Indent12, Background, Background);
    var upToBackground := "\n" + Indent12 + Background;
    Strings.IncludesLeft(upToBackground, "\n", Background);
    Strings.IncludesLeft(upToBackground + "\n", Indent12, Background);
    var beforeRule := upToBackground + "\n" + Indent12;
    Strings.IncludesLeft(beforeRule, rule, Background);
    FilterRuleParts(invert, tags, additionalFilters);
    Strings.IncludesSelf(rule);
    forall t | t in {rule, Invert(invert), additionalFilters}
      ensures Strings.Includes(beforeRule + rule, t)
    {
      Strings.IncludesRight(beforeRule, rule, t);
    }
    forall t | t in {Background, rule, Invert(invert), additionalFilters}
      ensures Strings.Includes(PageCss(invert, tags, additionalFilters), t)
    {
      Strings.IncludesLeft(beforeRule + rule, "\n", t);
      Strings.IncludesLeft(beforeRule + rule + "\n", Indent8, t);
    }
  }

  lemma FilterRuleParts(invert: string, tags: string, additionalFilters: string)
    ensures Strings.Includes(FilterRule(invert, tags, additionalFilters), Invert(invert))
    ensures Strings.Includes(FilterRule(invert, tags, additionalFilters), additionalFilters)
  {
    var pre := tags + " { filter: ";
    Strings.IncludesSelf(Invert(invert));
    Strings.IncludesRight(pre, Invert(invert), Invert(invert));
    Strings.IncludesLeft(pre + Invert(invert), " ", Invert(invert));
    Strings.IncludesLeft(pre + Invert(invert) + " ", additionalFilters, Invert(invert));
    Strings.IncludesSelf(additionalFilters);
    Strings.IncludesRight(pre + Invert(invert) + " ", additionalFilters, additionalFilters);
    forall t | t in {Invert(invert), additionalFilters}
      ensures Strings.Includes(FilterRule(invert, tags, additionalFilters), t)
    {
      Strings.IncludesLeft(pre + Invert(invert) + " " + additionalFilters, "; }", t);
    }
  }

  const InvertFailed := "Failed to invert colors."
  const InvertRotateFailed := "Failed to invert colors and hue rotate."

  /**
    `Darkmode.invertColors`: injects the page stylesheet as style text in
    the head. The stylesheet is never empty, so the call never fails.
   */
  function InvertColors(invert: string := "1", tags: string := DefaultTags, additionalFilters: string := ""): (r: Result<Dom.Injected>)
    ensures r == Ok(Dom.Injected(Dom.StyleElement(PageCss(invert, tags, additionalFilters)), Dom.Head, false))
  {
    WrapErr(Style.Inject(Dom.InjectParameters(text := PageCss(invert, tags, additionalFilters))), InvertFailed)
  }

  function HueRotate(rotation: string): string
  {
    "hue-rotate(" + rotation + "deg)"
  }

  /** The filter list `invertColorsAndHueRotate` passes on: the hue rotation first, then the caller's filters. */
  function HueRotated(rotation: string, additionalFilters: string): string
  {
    HueRotate(rotation) + " " + additionalFilters
  }

  /**
    `Darkmode.invertColorsAndHueRotate`: `invertColors` with the hue
    rotation placed before the additional filters; it never fails.
   */
  function InvertColorsAndHueRotate(invert: string := "1", rotation: string := "180", tags: string := DefaultTags,
                                    additionalFilters: string := ""): (r: Result<Dom.Injected>)
    ensures r == InvertColors(invert, tags, HueRotated(rotation, additionalFilters))
  {
    WrapErr(InvertColors(invert, tags, HueRotated(rotation, additionalFilters)), InvertRotateFailed)
  }

  /** The rotated stylesheet inverts, rotates the hue and keeps the caller's filters. */
  lemma InvertRotateRules(invert: string, rotation: string, tags: string, additionalFilters: string)
    ensures InvertColorsAndHueRotate(invert, rotation, tags, additionalFilters).Ok?
    ensures var css := InvertColorsAndHueRotate(invert, rotation, tags, additionalFilters).value.element.innerHTML;
            Strings.Includes(css, Invert(invert)) &&
            Strings.Includes(css, HueRotate(rotation)) &&
            Strings.Includes(css, additionalFilters)
  {
    var filters := HueRotated(rotation, additionalFilters);
    PageCssRules(invert, tags, filters);
    Strings.IncludesSelf(HueRotate(rotation));
    Strings.IncludesLeft(HueRotate(rotation), " ", HueRotate(rotation));
    Strings.IncludesLeft(HueRotate(rotation) + " ", additionalFilters, HueRotate(rotation));
    Strings.IncludesSelf(additionalFilters);
    Strings.IncludesRight(HueRotate(rotation) + " ", additionalFilters, additionalFilters);
    Strings.IncludesTrans(PageCss(invert, tags, filters), filters, HueRotate(rotation));
    Strings.IncludesTrans(PageCss(invert, tags, filters), filters, additionalFilters);
  }

  /** `Darkmode.Preset.invertAndHueRotate90`: 90% inversion, 180 degrees of hue rotation. */
  function InvertAndHueRotate90(): (r: Result<Dom.Injected>)
    ensures r == Ok(Dom.Injected(Dom.StyleElement(PageCss("0.9", DefaultTags, "hue-rotate(180deg) ")), Dom.Head, false))
  {
    assert HueRotated("180", "") == "hue-rotate(180deg) ";
    InvertColorsAndHueRotate(invert := "0.9")
  }

  /** `Darkmode.Preset.invertAndHueRotate85`: 85% inversion, 180 degrees of hue rotation. */
  function InvertAndHueRotate85(): (r: Result<Dom.Injected>)
    ensures r == Ok(Dom.Injected(Dom.StyleElement(PageCss("0.85", DefaultTags, "hue-rotate(180deg) ")), Dom.Head, false))
  {
    assert HueRotated("180", "") == "hue-rotate(180deg) ";
    InvertColorsAndHueRotate(invert := "0.85")
  }

  /**
    `Darkmode.Preset.invertAndHueRotateAltTagsAndContrast85`: 85% inversion
    and hue rotation on html, images and video only (not iframes), with 95% contrast.
   */
  function InvertAndHueRotateAltTagsAndContrast85(): (r: Result<Dom.Injected>)
    ensures r == Ok(Dom.Injected(
      Dom.StyleElement(PageCss("0.85", "html, img, video", "hue-rotate(180deg) contrast(0.95)")), Dom.Head, false))
  {
    assert HueRotated("180", "contrast(0.95)") == "hue-rotate(180deg) contrast(0.95)";
    InvertColorsAndHueRotate(invert := "0.85", tags := "html, img, video", additionalFilters := "contrast(0.95)")
  }

  /* ---------- Element ---------- */

  function ColorRule(selector: string): string
  {
    selector + ", " + selector + " a, " + selector + " span { color: #000000 !important; }"
  }

  function BackgroundRule(selector: string): string
  {
    selector + " { background: #ffffff !important; }"
  }

  function InvertRule(selector: string): string
  {
    selector + " { filter: invert(1) hue-rotate(180deg) !important; }"
  }

  function ImageInvertRule(selector: string): string
  {
    selector + " img { filter: invert(1) hue-rotate(180deg) !important; }"
  }

  /** One line of the element templates. */
  function Line(rule: string): string
  {
    Indent24 + rule + "\n"
  }

  lemma LineHolds(rule: string)
    ensures Strings.Includes(Line(rule), rule)
  {
    Strings.IncludesSelf(rule);
    Strings.IncludesRight(Indent24, rule, rule);
    Strings.IncludesLeft(Indent24 + rule, "\n", rule);
  }

  /**
    `Darkmode.Element.getCssString`: method 1 forces black text, a white
    background and an inverting, hue-rotating filter on the element; method
    2 only the colours; method 3 inverts the element's images; any other
    method gives the empty string.
   */
  function ElementCss(selector: string, m: int): (r: string)
    ensures m in {1, 2, 3} ==> |r| > |Indent20| && r[0] == '\n' && Strings.EndsWith(r, Indent20)
    ensures m !in {1, 2, 3} ==> r == ""
  {
    match m
    case 1 => "\n" + Line(ColorRule(selector)) + Line(BackgroundRule(selector)) + Line(InvertRule(selector)) + Indent20
    case 2 => "\n" + Line(ColorRule(selector)) + Line(BackgroundRule(selector)) + Indent20
    case 3 => "\n" + Line(ImageInvertRule(selector)) + Indent20
    case _ => ""
  }

  /** Only the three numbered methods produce any CSS. */
  lemma ElementCssEmptyIff(selector: string, m: int)
    ensures ElementCss(selector, m) == "" <==> m !in {1, 2, 3}
  {
    if m in {1, 2, 3} {
      assert ElementCss(selector, m)[0] == '\n';
    }
  }

  /** The rules each method's stylesheet holds. */
  lemma ElementCssRules(selector: string)
    ensures Strings.Includes(ElementCss(selector, 1), ColorRule(selector))
    ensures Strings.Includes(ElementCss(selector, 1), BackgroundRule(selector))
    ensures Strings.Includes(ElementCss(selector, 1), InvertRule(selector))
    ensures Strings.Includes(ElementCss(selector, 2), ColorRule(selector))
    ensures Strings.Includes(ElementCss(selector, 2), BackgroundRule(selector))
    ensures Strings.Includes(ElementCss(selector, 3), ImageInvertRule(selector))
  {
    var c, b, i := ColorRule(selector), BackgroundRule(selector), InvertRule(selector);
    LineHolds(c);
    LineHolds(b);
    LineHolds(i);
    LineHolds(ImageInvertRule(selector));
    // the colour line
    Strings.IncludesRight("\n", Line(c), c);
    Strings.IncludesLeft("\n" + Line(c), Line(b), c);
    Strings.IncludesLeft("\n" + Line(c) + Line(b), Line(i), c);
    Strings.IncludesLeft("\n" + Line(c) + Line(b) + Line(i), Indent20, c);
    Strings.IncludesLeft("\n" + Line(c) + Line(b), Indent20, c);
    // the background line
    Strings.IncludesRight("\n" + Line(c), Line(b), b);
    Strings.IncludesLeft("\n" + Line(c) + Line(b), Line(i), b);
    Strings.IncludesLeft("\n" + Line(c) + Line(b) + Line(i), Indent20, b);
    Strings.IncludesLeft("\n" + Line(c) + Line(b), Indent20, b);
    // the filter lines
    Strings.IncludesRight("\n" + Line(c) + Line(b), Line(i), i);
    Strings.IncludesLeft("\n" + Line(c) + Line(b) + Line(i), Indent20, i);
    Strings.IncludesRight("\n", Line(ImageInvertRule(selector)), ImageInvertRule(selector));
    Strings.IncludesLeft("\n" + Line(ImageInvertRule(selector)), Indent20, ImageInvertRule(selector));
  }

  datatype Sheets = Sheet(injected: Dom.Injected) | Sheets(items: seq<Dom.Injected>)

  /** One selector's darkmode stylesheet, injected through `Style.addTextHead`. */
  function SheetStep(m: int, selector: string): Result<Dom.Injected>
  {
    Style.InjectTextHead(ElementCss(selector, m))
  }

  /** A numbered method always injects its stylesheet; any other method makes the injection throw. */
  lemma SheetStepOutcome(m: int, selector: string)
    ensures m in {1, 2, 3} ==>
              SheetStep(m, selector) == Ok(Dom.Injected(Dom.StyleElement(ElementCss(selector, m)), Dom.Head, false))
    ensures m !in {1, 2, 3} ==>
              SheetStep(m, selector) == Err(Wrapped(Style.InjectFailed, Error(Style.NothingToInject)))
  {
    ElementCssEmptyIff(selector, m);
  }

  /** The array form fails exactly when the method is not a numbered one and there is a selector to fail on. */
  lemma {:induction false} EachSheetFails(m: int, selectors: seq<string>)
    ensures Collect.Each(m, selectors, SheetStep).Err? <==> m !in {1, 2, 3} && |selectors| > 0
    ensures Collect.Each(m, selectors, SheetStep).Err? ==>
              Collect.Each(m, selectors, SheetStep).error == Wrapped(Style.InjectFailed, Error(Style.NothingToInject))
  {
    if selectors != [] {
      SheetStepOutcome(m, selectors[0]);
      EachSheetFails(m, selectors[1..]);
    }
  }

  /** One pass of the loop: the selector's CSS, injected as text in the head. */
  method ApplyOne(selector: string, m: int) returns (element: Result<Dom.Injected>)
    ensures element == SheetStep(m, selector)
  {
    var text := ElementCss(selector, m);
    element := Style.InjectTextHead(text);
  }

  /** The loop over an array of selectors, one stylesheet per selector. */
  method ApplyAll(selectors: seq<string>, m: int) returns (r: Result<seq<Dom.Injected>>)
    ensures r == Collect.Each(m, selectors, SheetStep)
  {
    var elements: seq<Dom.Injected> := [];
    var i := 0;
    while i < |selectors|
      invariant 0 <= i <= |selectors| && |elements| == i
      invariant forall k :: 0 <= k < i ==> SheetStep(m, selectors[k]) == Ok(elements[k])
    {
      var element := ApplyOne(selectors[i], m);
      if element.Err? {
        Collect.EachStopsAt(m, selectors, SheetStep, i);
        return Err(element.error);
      }
      elements := elements + [element.value];
      i := i + 1;
    }
    Collect.EachOk(m, selectors, SheetStep, elements);
    r := Ok(elements);
  }

  /**
    `Darkmode.Element.genericMethod`: one stylesheet per selector, in order.
    Nothing catches here: a method other than 1, 2 or 3 yields empty CSS
    and the first injection's error escapes unchanged.
   */
  method GenericMethod(selectors: Style.Selectors, m: int := 1) returns (r: Result<Sheets>)
    ensures r.Err? <==> m !in {1, 2, 3} && (selectors.One? || |selectors.selectors| > 0)
    ensures r.Err? ==> r.error == Wrapped(Style.InjectFailed, Error(Style.NothingToInject))
    ensures selectors.One? && r.Ok? ==>
              r.value == Sheet(Dom.Injected(Dom.StyleElement(ElementCss(selectors.selector, m)), Dom.Head, false))
    ensures selectors.Many? && r.Ok? ==>
              r.value.Sheets? && |r.value.items| == |selectors.selectors| &&
              forall k :: 0 <= k < |selectors.selectors| ==>
                r.value.items[k] == Dom.Injected(Dom.StyleElement(ElementCss(selectors.selectors[k], m)), Dom.Head, false)
  {
    match selectors
    case One(selector) =>
      var text := ElementCss(selector, m);
      var element := Style.InjectTextHead(text);
      SheetStepOutcome(m, selector);
      r := if element.Ok? then Ok(Sheet(element.value)) else Err(element.error);
    case Many(list) =>
      var elements := ApplyAll(list, m);
      EachSheetFails(m, list);
      if elements.Err? {
        return Err(elements.error);
      }
      r := Ok(Sheets(elements.value));
      Collect.EachOk(m, list, SheetStep, elements.value);
      forall k | 0 <= k < |list|
        ensures elements.value[k] == Dom.Injected(Dom.StyleElement(ElementCss(list[k], m)), Dom.Head, false)
      {
        SheetStepOutcome(m, list[k]);
      }
  }
}
