/**
  Style: stylesheet injection, the hide-method CSS builder, removal of
  external scripts, and the hide methods applied to one selector or many.
 */
module Style {
  import opened Js
  import Strings
  import Dom
  import Collect
  import Selector

  const InjectFailed := "Failed to inject style."
  const NothingToInject := "Neither url or style was specified."

  /* ---------- inject ---------- */

  /** The checks and the element choice of `Style.inject`, before the catch wraps a failure. */
  function InjectUnwrapped(p: Dom.InjectParameters): Result<Dom.Injected>
  {
    if |p.url| == 0 && |p.text| == 0 then Err(Error(NothingToInject))
    else
      match Dom.ParseLocation(p.location)
      case None => Err(Error("Invalid location, " + p.location + "."))
      case Some(location) =>
        var element :=
          if |p.url| > 0 then Dom.LinkElement("stylesheet", "text/css", p.url)
          else Dom.StyleElement(p.text);
        Ok(Dom.Injected(element, location, p.wait))
  }

  /**
    `Style.inject`: fails when url and text are both empty (checked first)
    or the location is neither 'head' nor 'body'; a non-empty url builds a
    stylesheet link and the text is ignored; otherwise a style element holds
    the text. Every failure is wrapped as 'Failed to inject style.'.
   */
  function Inject(p: Dom.InjectParameters): (r: Result<Dom.Injected>)
    ensures r.Err? <==> (p.url == "" && p.text == "") || Dom.ParseLocation(p.location).None?
    ensures r.Err? ==> r.error.Wrapped? && r.error.message == InjectFailed
    ensures p.url == "" && p.text == "" ==> r == Err(Wrapped(InjectFailed, Error(NothingToInject)))
    ensures (p.url != "" || p.text != "") && Dom.ParseLocation(p.location).None? ==>
              r == Err(Wrapped(InjectFailed, Error("Invalid location, " + p.location + ".")))
    ensures r.Ok? ==> Dom.ParseLocation(p.location) == Some(r.value.location) && r.value.awaitsLoad == p.wait
    ensures r.Ok? && p.url != "" ==> r.value.element == Dom.LinkElement("stylesheet", "text/css", p.url)
    ensures r.Ok? && p.url == "" ==> r.value.element == Dom.StyleElement(p.text)
  {
    WrapErr(InjectUnwrapped(p), InjectFailed)
  }

  /** `Style.injectTextHead` (alias `addTextHead`): `inject({ text })`. */
  function InjectTextHead(text: string): (r: Result<Dom.Injected>)
    ensures text != "" ==> r == Ok(Dom.Injected(Dom.StyleElement(text), Dom.Head, false))
    ensures text == "" ==> r == Err(Wrapped(InjectFailed, Error(NothingToInject)))
  {
    Inject(Dom.InjectParameters(text := text))
  }

  /* ---------- injectArray, injectArrayHeadUrl ---------- */

  /** One link of the chain: inject, then wait for the load event when asked to. */
  function InjectStep(loaded: Dom.LoadOracle, p: Dom.InjectParameters): Settlement<Dom.Loaded>
  {
    match Inject(p)
    case Err(e) => Rejected(e)
    case Ok(injected) =>
      if !injected.awaitsLoad then Resolved(Dom.ElementValue(injected.element))
      else if loaded(injected.element) then Resolved(Dom.LoadEvent(injected.element))
      // `onerror` throws inside the event handler: the promise never settles.
      else Pending
  }

  const ArrayFailed := "Failed to inject array of styles."

  /** `Style.injectArray`: one result per parameter object, in input order, stopping at the first failure. */
  method InjectArray(ps: seq<Dom.InjectParameters>, loaded: Dom.LoadOracle)
    returns (r: Settlement<seq<Dom.Loaded>>)
    ensures r == WrapRejection(Collect.Chain(loaded, ps, InjectStep), ArrayFailed)
    ensures r.Resolved? ==>
              |r.value| == |ps| &&
              forall k :: 0 <= k < |ps| ==> InjectStep(loaded, ps[k]) == Resolved(r.value[k])
    ensures r.Rejected? ==> r.reason.Wrapped? && r.reason.message == ArrayFailed
  {
    var elements: seq<Dom.Loaded> := [];
    var i := 0;
    while i < |ps|
      invariant 0 <= i <= |ps| && |elements| == i
      invariant forall k :: 0 <= k < i ==> InjectStep(loaded, ps[k]) == Resolved(elements[k])
    {
      var injected := Inject(ps[i]);
      if injected.Err? {
        Collect.ChainStopsAt(loaded, ps, InjectStep, i);
        return Rejected(Wrapped(ArrayFailed, injected.error));
      }
      var element := injected.value.element;
      if injected.value.awaitsLoad && !loaded(element) {
        Collect.ChainStopsAt(loaded, ps, InjectStep, i);
        return Pending;
      }
      elements := elements + [if injected.value.awaitsLoad then Dom.LoadEvent(element) else Dom.ElementValue(element)];
      i := i + 1;
    }
    Collect.ChainResolved(loaded, ps, InjectStep, elements);
    r := Resolved(elements);
  }

  /**
    `Style.injectArrayHeadUrl`: every URL becomes a stylesheet link in the
    head, in order; the first empty URL rejects the whole chain.
   */
  method InjectArrayHeadUrl(urls: seq<string>, loaded: Dom.LoadOracle)
    returns (r: Settlement<seq<Dom.Loaded>>)
    ensures r.Resolved? <==> forall k :: 0 <= k < |urls| ==> urls[k] != ""
    ensures r.Resolved? ==>
              |r.value| == |urls| &&
              forall k :: 0 <= k < |urls| ==>
                r.value[k] == Dom.ElementValue(Dom.LinkElement("stylesheet", "text/css", urls[k]))
    ensures !r.Resolved? ==> r == Rejected(Wrapped(ArrayFailed, Wrapped(InjectFailed, Error(NothingToInject))))
  {
    var ps := Dom.HeadUrlParameters(urls, false);
    r := InjectArray(ps, loaded);
    if forall k :: 0 <= k < |urls| ==> urls[k] != "" {
      var links := seq(|urls|, k requires 0 <= k < |urls| =>
        Dom.ElementValue(Dom.LinkElement("stylesheet", "text/css", urls[k])));
      Collect.ChainResolved(loaded, ps, InjectStep, links);
    } else {
      var j :| 0 <= j < |urls| && urls[j] == "";
      assert !InjectStep(loaded, ps[j]).Resolved?;
      var k := Collect.FirstUnresolved(loaded, ps, InjectStep);
      Collect.ChainStopsAt(loaded, ps, InjectStep, k);
    }
  }

  /* ---------- removeExternal ---------- */

  /**
    `Style.removeExternal`: removes, from the document, every script whose
    `src` includes `scriptName` (the empty name matches them all), and
    reports true whether or not anything matched.
   */
  method RemoveExternal(doc: Dom.Document, scriptName: string := "") returns (ok: bool)
    modifies doc
    ensures ok
    ensures doc.scripts == Dom.Kept(old(doc.scripts), scriptName)
  {
    var scripts := doc.scripts;
    for i := 0 to |scripts|
      invariant doc.scripts == Dom.Kept(scripts[..i], scriptName) + scripts[i..]
    {
      Dom.RemovalStep(scripts, i, scriptName);
      if Strings.Includes(scripts[i].src, scriptName) {
        doc.RemoveScriptAt(|Dom.Kept(scripts[..i], scriptName)|);
      }
    }
    assert scripts[..|scripts|] == scripts;
    return true;
  }

  /* ---------- Element: the hide methods ---------- */

  /** The declaration a hide method stands for; any other method gives ''. */
  function Declaration(hideMethod: string): (r: string)
    ensures r != "" <==> hideMethod in {"displayNone", "opacityZero", "visibilityHidden"}
    ensures r != "" ==> Strings.EndsWith(r, " !important;")
  {
    match hideMethod
    case "displayNone" => "display: none !important;"
    case "opacityZero" => "opacity: 0 !important;"
    case "visibilityHidden" => "visibility: hidden !important;"
    case _ => ""
  }

  /** `Style.Element.getCssString`: the declaration alone when inline, otherwise a rule for the selector. */
  function CssString(selector: string, hideMethod: string, inline: bool): (r: string)
    ensures inline ==> r == Declaration(hideMethod)
    ensures !inline ==> |r| >= |selector| && r[..|selector|] == selector && Strings.EndsWith(r, " }")
  {
    var properties := Declaration(hideMethod);
    if inline then properties else selector + " { " + properties + " }"
  }

  /**
    The three hide methods have distinct, non-empty declarations; every
    other method name has none.
   */
  lemma DeclarationsDistinct(a: string, b: string)
    ensures Declaration(a) != "" <==> a in {"displayNone", "opacityZero", "visibilityHidden"}
    ensures Declaration(a) != "" && Declaration(a) == Declaration(b) ==> a == b
  {
  }

  /** The rule form is the inline form wrapped in `selector { … }`, and always contains the selector's rule. */
  lemma {:induction false} RuleWrapsInline(selector: string, hideMethod: string)
    ensures CssString(selector, hideMethod, false) == selector + " { " + CssString(selector, hideMethod, true) + " }"
    ensures Strings.Includes(CssString(selector, hideMethod, false), Declaration(hideMethod))
    ensures CssString(selector, hideMethod, false) != ""
  {
    Strings.IncludesAffix(selector + " { ", Declaration(hideMethod), " }");
  }

  /** An element with an inline style attribute. */
  datatype Styled = InlineStyle(node: Dom.NodeId, css: string) | StyleSheet(injected: Dom.Injected)

  const InlineFailed := "Failed to apply inline style."

  /**
    `Style.Element.inline` without waiting: looks the selector up and sets its
    `style` attribute to `css`; an empty selector, a failed lookup or no
    match (a null element) fails, wrapped as 'Failed to apply inline style.'.
   */
  function Inline(selector: string, css: string, query: Dom.Query): (r: Result<Styled>)
    ensures r.Ok? <==> Selector.Find(selector, query).Ok? && Selector.Find(selector, query).value.Some?
    ensures r.Ok? ==> r.value == InlineStyle(Selector.Find(selector, query).value.value, css)
    ensures r.Err? ==> r.error.Wrapped? && r.error.message == InlineFailed
  {
    WrapErr(
      match Selector.Find(selector, query)
      case Err(e) => Err(e)
      case Ok(None) => Err(TypeError)
      case Ok(Some(n)) => Ok(InlineStyle(n, css)),
      InlineFailed)
  }

  datatype Selectors = One(selector: string) | Many(selectors: seq<string>)

  datatype Applied = Single(item: Styled) | Each(items: seq<Styled>)

  datatype InlineContext = InlineContext(hideMethod: string, query: Dom.Query)

  /** One inline step: the declaration applied as the selector's style attribute. */
  function InlineStep(c: InlineContext, selector: string): Result<Styled>
  {
    Inline(selector, CssString(selector, c.hideMethod, true), c.query)
  }

  /** One global step: the selector's rule injected as a style element. */
  function SheetStep(hideMethod: string, selector: string): Result<Styled>
  {
    match Inject(Dom.InjectParameters(text := CssString(selector, hideMethod, false)))
    case Err(e) => Err(e)
    case Ok(injected) => Ok(StyleSheet(injected))
  }

  /** The global form never fails: every rule is non-empty, so each becomes a style element in the head. */
  lemma SheetStepSucceeds(hideMethod: string, selector: string)
    ensures SheetStep(hideMethod, selector) ==
            Ok(StyleSheet(Dom.Injected(Dom.StyleElement(CssString(selector, hideMethod, false)), Dom.Head, false)))
  {
    RuleWrapsInline(selector, hideMethod);
  }

  /** The global form applied to many selectors gives exactly one style element per selector, in order. */
  lemma SheetsForEverySelector(hideMethod: string, selectors: seq<string>)
    ensures Collect.Each(hideMethod, selectors, SheetStep) ==
            Ok(seq(|selectors|, k requires 0 <= k < |selectors| =>
              StyleSheet(Dom.Injected(Dom.StyleElement(CssString(selectors[k], hideMethod, false)), Dom.Head, false))))
  {
    var expected := seq(|selectors|, k requires 0 <= k < |selectors| =>
      StyleSheet(Dom.Injected(Dom.StyleElement(CssString(selectors[k], hideMethod, false)), Dom.Head, false)));
    forall k | 0 <= k < |selectors| ensures SheetStep(hideMethod, selectors[k]) == Ok(expected[k]) {
      SheetStepSucceeds(hideMethod, selectors[k]);
    }
    Collect.EachOk(hideMethod, selectors, SheetStep, expected);
  }

  const SingleInlineFailed := "Failed to apply inline darkmode to selector."
  const SingleFailed := "Failed to apply darkmode to selector."
  const ManyInlineFailed := "Failed to apply inline darkmode to array of selectors."
  const ManyFailed := "Failed to apply darkmode to array of selectors."

  function AsEach(r: Result<seq<Styled>>): Result<Applied>
  {
    match r
    case Ok(items) => Ok(Each(items))
    case Err(e) => Err(e)
  }

  function AsSingle(r: Result<Styled>): Result<Applied>
  {
    match r
    case Ok(item) => Ok(Single(item))
    case Err(e) => Err(e)
  }

  /** One inline pass: the selector's declaration set as its style attribute. */
  method ApplyInline(c: InlineContext, selector: string) returns (element: Result<Styled>)
    ensures element == InlineStep(c, selector)
  {
    var css := CssString(selector, c.hideMethod, true);
    element := Inline(selector, css, c.query);
  }

  /** One global pass: the selector's rule injected as a style element, which never fails. */
  method ApplySheet(hideMethod: string, selector: string) returns (element: Result<Styled>)
    ensures element == SheetStep(hideMethod, selector)
    ensures element.Ok?
  {
    var text := CssString(selector, hideMethod, false);
    var injected := Inject(Dom.InjectParameters(text := text));
    element := match injected
      case Err(e) => Err(e)
      case Ok(sheet) => Ok(StyleSheet(sheet));
    SheetStepSucceeds(hideMethod, selector);
  }

  /** The inline loop over an array of selectors, stopping at the first failure. */
  method InlineEach(c: InlineContext, list: seq<string>) returns (r: Result<seq<Styled>>)
    ensures r == Collect.Each(c, list, InlineStep)
    ensures r.Ok? ==> |r.value| == |list|
  {
    var elements: seq<Styled> := [];
    var i := 0;
    while i < |list|
      invariant 0 <= i <= |list| && |elements| == i
      invariant forall k :: 0 <= k < i ==> InlineStep(c, list[k]) == Ok(elements[k])
    {
      var element := ApplyInline(c, list[i]);
      if element.Err? {
        Collect.EachStopsAt(c, list, InlineStep, i);
        return Err(element.error);
      }
      elements := elements + [element.value];
      i := i + 1;
    }
    Collect.EachOk(c, list, InlineStep, elements);
    r := Ok(elements);
  }

  /**
    The global loop over an array of selectors: one style element per
    selector. No pass fails, so the catch around it is never reached.
   */
  method SheetEach(hideMethod: string, list: seq<string>) returns (r: Result<seq<Styled>>)
    ensures r == Collect.Each(hideMethod, list, SheetStep)
    ensures r.Ok? && |r.value| == |list|
  {
    var elements: seq<Styled> := [];
    var i := 0;
    while i < |list|
      invariant 0 <= i <= |list| && |elements| == i
      invariant forall k :: 0 <= k < i ==> SheetStep(hideMethod, list[k]) == Ok(elements[k])
    {
      var element := ApplySheet(hideMethod, list[i]);
      elements := elements + [element.value];
      i := i + 1;
    }
    Collect.EachOk(hideMethod, list, SheetStep, elements);
    r := Ok(elements);
  }

  /**
    `Style.Element.genericMethod` without waiting: for one selector the
    single step; for an array one element per selector, in order, the
    first failure wrapping the whole call.
   */
  method GenericMethod(selectors: Selectors, hideMethod: string, inline: bool, query: Dom.Query)
    returns (r: Result<Applied>)
    ensures selectors.One? && inline ==>
              r == AsSingle(WrapErr(InlineStep(InlineContext(hideMethod, query), selectors.selector), SingleInlineFailed))
    ensures selectors.One? && !inline ==>
              r == AsSingle(WrapErr(SheetStep(hideMethod, selectors.selector), SingleFailed))
    ensures selectors.Many? && inline ==>
              r == AsEach(WrapErr(Collect.Each(InlineContext(hideMethod, query), selectors.selectors, InlineStep), ManyInlineFailed))
    ensures selectors.Many? && !inline ==>
              r == AsEach(WrapErr(Collect.Each(hideMethod, selectors.selectors, SheetStep), ManyFailed))
    ensures selectors.Many? && r.Ok? ==> r.value.Each? && |r.value.items| == |selectors.selectors|
  {
    match selectors
    case One(selector) =>
      if inline {
        var element := ApplyInline(InlineContext(hideMethod, query), selector);
        r := AsSingle(WrapErr(element, SingleInlineFailed));
      } else {
        var element := ApplySheet(hideMethod, selector);
        r := AsSingle(WrapErr(element, SingleFailed));
      }
    case Many(list) =>
      if inline {
        var elements := InlineEach(InlineContext(hideMethod, query), list);
        r := AsEach(WrapErr(elements, ManyInlineFailed));
      } else {
        var elements := SheetEach(hideMethod, list);
        r := AsEach(WrapErr(elements, ManyFailed));
      }
  }
}
