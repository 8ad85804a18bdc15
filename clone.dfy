/**
  Clone: deep-cloning an element chosen by selector, optionally appending
  the clone to a destination, one at a time or in bulk.
 */
module Clone {
  import opened Js
  import Dom
  import Collect
  import Selector

  /** The `ElementSelectorObject`, with its defaults. */
  datatype ElementSelector = ElementSelector(
    elementSelector: string := "",
    sourceSelector: string := "",
    destinationSelector: string := "")

  /** A deep clone of `original`, detached (`parent` is `None`) or appended to `parent`. */
  datatype ClonedNode = ClonedNode(original: Dom.NodeId, parent: Option<Dom.NodeId>)

  const CloneFailed := "Failed to clone element."
  const TwoSources := "There's two source selectors."
  const NoSource := "No source selectors were provided."

  /** The source selector in use once validation passed: `elementSelector` when non-empty, else `sourceSelector`. */
  function ChosenSource(o: ElementSelector): string
  {
    if |o.elementSelector| > 0 then o.elementSelector else o.sourceSelector
  }

  /** Validation allows exactly one source selector; the two-selector check comes first. */
  function Validate(o: ElementSelector): (r: Result<string>)
    ensures r.Ok? <==> (o.elementSelector == "") != (o.sourceSelector == "")
    ensures o.elementSelector != "" && o.sourceSelector != "" ==> r == Err(Error(TwoSources))
    ensures o.elementSelector == "" && o.sourceSelector == "" ==> r == Err(Error(NoSource))
    ensures r.Ok? ==> r.value != "" && r.value in {o.elementSelector, o.sourceSelector}
  {
    var elementSelectorInUse := |o.elementSelector| > 0;
    var sourceSelectorInUse := |o.sourceSelector| > 0;
    if elementSelectorInUse && sourceSelectorInUse then Err(Error(TwoSources))
    else if !elementSelectorInUse && !sourceSelectorInUse then Err(Error(NoSource))
    else Ok(ChosenSource(o))
  }

  /**
    Lines after the source lookup: clone the source element deeply (a null
    source throws), and with a non-empty destination selector append the
    clone to the destination's first match (a null destination throws) and
    return the appended node; otherwise return the detached clone.
   */
  function CloneAndAttach(source: Option<Dom.NodeId>, destinationSelector: string, query: Dom.Query): (r: Result<ClonedNode>)
    ensures source.None? ==> r == Err(TypeError)
    ensures source.Some? && destinationSelector == "" ==> r == Ok(ClonedNode(source.value, None))
    ensures source.Some? && destinationSelector != "" ==>
              match Selector.Find(destinationSelector, query)
              case Err(e) => r == Err(e)
              case Ok(None) => r == Err(TypeError)
              case Ok(Some(d)) => r == Ok(ClonedNode(source.value, Some(d)))
  {
    match source
    case None => Err(TypeError)
    case Some(original) =>
      var sourceNode := ClonedNode(original, None);
      if |destinationSelector| > 0 then
        match Selector.Find(destinationSelector, query)
        case Err(e) => Err(e)
        case Ok(None) => Err(TypeError)
        case Ok(Some(destination)) => Ok(sourceNode.(parent := Some(destination)))
      else Ok(sourceNode)
  }

  /**
    `Clone.element` as written: the source lookup passes the chosen
    selector as a bare string to `Selector.get`, whose destructuring then
    sees the empty selector, so the lookup fails and so does every call.
   */
  function ElementAsWritten(o: ElementSelector, query: Dom.Query): (r: Result<ClonedNode>)
    ensures r.Err? && r.error.Wrapped? && r.error.message == CloneFailed
  {
    WrapErr(
      match Validate(o)
      case Err(e) => Err(e)
      case Ok(chosen) =>
        match Selector.GetElement(Selector.BareString(chosen), query)
        case Err(e) => Err(e)
        // a pending promise has no `cloneNode`
        case Ok(Waiting(_)) => Err(TypeError)
        case Ok(Immediate(source)) => CloneAndAttach(source, o.destinationSelector, query),
      CloneFailed)
  }

  /**
    As written every call fails, wrapped as 'Failed to clone element.': on
    validation with the validation message, and past validation with the
    lookup's empty-selector error, even when the source element exists.
   */
  lemma ElementAsWrittenAlwaysFails(o: ElementSelector, query: Dom.Query)
    ensures Validate(o).Err? ==> ElementAsWritten(o, query) == Err(Wrapped(CloneFailed, Validate(o).error))
    ensures Validate(o).Ok? ==>
              ElementAsWritten(o, query) ==
              Err(Wrapped(CloneFailed, Wrapped(Selector.GetElementFailed, Error(Selector.EmptySelector))))
    ensures ElementAsWritten(o, query).Err?
  {
  }

  /** The concrete case: the source exists, nothing else is asked for, and the call still fails. */
  lemma ExistingSourceStillFails(query: Dom.Query)
    requires query("#a") == Ok(Some(1))
    ensures Element(ElementSelector(elementSelector := "#a"), query) == Ok(ClonedNode(1, None))
    ensures ElementAsWritten(ElementSelector(elementSelector := "#a"), query).Err?
  {
    ElementAsWrittenAlwaysFails(ElementSelector(elementSelector := "#a"), query);
  }

  /**
    `Clone.element` with the source looked up as `{ selector }`, as the
    destination lookup already is: validation, then the clone of the
    source's first match, attached as `CloneAndAttach` says.
   */
  function Element(o: ElementSelector, query: Dom.Query): (r: Result<ClonedNode>)
    ensures Validate(o).Err? ==> r == Err(Wrapped(CloneFailed, Validate(o).error))
    ensures Validate(o).Ok? && query(ChosenSource(o)).Err? ==>
              r == Err(Wrapped(CloneFailed, Wrapped(Selector.GetElementFailed, query(ChosenSource(o)).error)))
    ensures Validate(o).Ok? && query(ChosenSource(o)) == Ok(None) ==> r == Err(Wrapped(CloneFailed, TypeError))
    ensures Validate(o).Ok? && query(ChosenSource(o)).Ok? && query(ChosenSource(o)).value.Some? ==>
              var source := query(ChosenSource(o)).value.value;
              (o.destinationSelector == "" ==> r == Ok(ClonedNode(source, None))) &&
              (o.destinationSelector != "" && query(o.destinationSelector).Ok? &&
               query(o.destinationSelector).value.Some? ==>
                 r == Ok(ClonedNode(source, Some(query(o.destinationSelector).value.value)))) &&
              (o.destinationSelector != "" && query(o.destinationSelector).Err? ==>
                 r == Err(Wrapped(CloneFailed, Wrapped(Selector.GetElementFailed, query(o.destinationSelector).error)))) &&
              (o.destinationSelector != "" && query(o.destinationSelector) == Ok(None) ==>
                 r == Err(Wrapped(CloneFailed, TypeError)))
    ensures r.Ok? ==> Validate(o).Ok? && query(ChosenSource(o)) == Ok(Some(r.value.original))
    ensures r.Ok? ==> (r.value.parent.None? <==> o.destinationSelector == "")
  {
    WrapErr(
      match Validate(o)
      case Err(e) => Err(e)
      case Ok(chosen) =>
        match Selector.Find(chosen, query)
        case Err(e) => Err(e)
        case Ok(source) => CloneAndAttach(source, o.destinationSelector, query),
      CloneFailed)
  }

  const BulkFailed := "Failed to clone elements in bulk."
  const EmptyArray := "Parameter array is empty."

  function ElementStep(query: Dom.Query, o: ElementSelector): Result<ClonedNode>
  {
    Element(o, query)
  }

  /** `Clone.elementAll`: rejects an empty array, then clones in order, stopping at the first failure. */
  method ElementAll(objs: seq<ElementSelector>, query: Dom.Query) returns (r: Result<seq<ClonedNode>>)
    ensures objs == [] ==> r == Err(Wrapped(BulkFailed, Error(EmptyArray)))
    ensures objs != [] ==> r == WrapErr(Collect.Each(query, objs, ElementStep), BulkFailed)
    ensures r.Ok? ==> |r.value| == |objs| && forall k :: 0 <= k < |objs| ==> Element(objs[k], query) == Ok(r.value[k])
  {
    if |objs| == 0 {
      return Err(Wrapped(BulkFailed, Error(EmptyArray)));
    }
    var clonedNodes: seq<ClonedNode> := [];
    var i := 0;
    while i < |objs|
      invariant 0 <= i <= |objs| && |clonedNodes| == i
      invariant forall k :: 0 <= k < i ==> ElementStep(query, objs[k]) == Ok(clonedNodes[k])
    {
      var clonedNode := Element(objs[i], query);
      if clonedNode.Err? {
        Collect.EachStopsAt(query, objs, ElementStep, i);
        return Err(Wrapped(BulkFailed, clonedNode.error));
      }
      clonedNodes := clonedNodes + [clonedNode.value];
      i := i + 1;
    }
    Collect.EachOk(query, objs, ElementStep, clonedNodes);
    r := Ok(clonedNodes);
  }

  function ElementAsWrittenStep(query: Dom.Query, o: ElementSelector): Result<ClonedNode>
  {
    ElementAsWritten(o, query)
  }

  /** As written, the bulk form fails on its first entry, with that entry's error. */
  lemma ElementAllAsWrittenFailsFirst(objs: seq<ElementSelector>, query: Dom.Query)
    requires objs != []
    ensures Collect.Each(query, objs, ElementAsWrittenStep) == Err(ElementAsWritten(objs[0], query).error)
  {
    ElementAsWrittenAlwaysFails(objs[0], query);
    Collect.EachStopsAt(query, objs, ElementAsWrittenStep, 0);
  }
}
