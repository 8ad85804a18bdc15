/**
  Element selection: `getElement`, the `waitForElement` settlement machine,
  `getArrayOfElements` and the `querySelectorAll` wrappers.
 */
module Selector {
  import opened Js
  import Dom
  import Collect

  const GetElementFailed := "Failed to get element from selector."
  const EmptySelector := "Selector parameter is empty."
  const TimedOut := "Timed out waiting for element."
  const DefaultTimeout: nat := 15000

  /**
    What `getElement` is called with: a `{ selector, wait }` object, or (as
    one caller does) a bare string.
   */
  datatype SelectorArgument = Parameters(selector: string, wait: bool := false) | BareString(text: string)

  /**
    The `{ selector = '', wait = false }` destructuring of the argument. A
    string primitive has neither property, so both take their defaults.
   */
  function Destructure(arg: SelectorArgument): (sw: (string, bool))
    ensures arg.BareString? ==> sw == ("", false)
  {
    match arg
    case Parameters(s, w) => (s, w)
    case BareString(_) => ("", false)
  }

  /** What `getElement` returns: the lookup result now, or the promise of `waitForElement(selector)`. */
  datatype Lookup = Immediate(node: Option<Dom.NodeId>) | Waiting(selector: string)

  /** `Selector.getElement`. */
  function GetElement(arg: SelectorArgument, query: Dom.Query): (r: Result<Lookup>)
    ensures Destructure(arg).0 == "" ==> r == Err(Wrapped(GetElementFailed, Error(EmptySelector)))
    ensures Destructure(arg).0 != "" && Destructure(arg).1 ==> r == Ok(Waiting(Destructure(arg).0))
    ensures Destructure(arg).0 != "" && !Destructure(arg).1 ==>
              match query(Destructure(arg).0)
              case Ok(found) => r == Ok(Immediate(found))
              case Err(e) => r == Err(Wrapped(GetElementFailed, e))
  {
    var (selector, wait) := Destructure(arg);
    WrapErr(
      if |selector| == 0 then Err(Error(EmptySelector))
      else if wait then Ok(Waiting(selector))
      else match query(selector)
        case Err(e) => Err(e)
        case Ok(found) => Ok(Immediate(found)),
      GetElementFailed)
  }

  /** `getElement({ selector })` as the callers that never wait use it: the first match or null. */
  function Find(selector: string, query: Dom.Query): (r: Result<Option<Dom.NodeId>>)
    ensures selector == "" ==> r == Err(Wrapped(GetElementFailed, Error(EmptySelector)))
    ensures selector != "" ==> r == WrapErr(query(selector), GetElementFailed)
  {
    match GetElement(Parameters(selector), query)
    case Err(e) => Err(e)
    case Ok(lookup) => Ok(if lookup.Immediate? then lookup.node else None)
  }

  /** The empty selector fails the same way whether or not the caller waits. */
  lemma EmptySelectorIgnoresWait(query: Dom.Query)
    ensures GetElement(Parameters("", true), query) == GetElement(Parameters("", false), query)
    ensures GetElement(Parameters("", false), query).Err?
  {
  }

  /* ---------- waitForElement ---------- */

  /**
    The state of one `waitForElement` promise: whether the mutation observer
    is connected, whether the timeout is armed, the promise's settlement,
    and the errors thrown inside observer callbacks (reported, never
    settling the promise).
   */
  datatype WaitState = WaitState(
    observerConnected: bool,
    timeoutArmed: bool,
    settlement: Settlement<Dom.NodeId>,
    uncaught: seq<Error>)

  /**
    The promise executor: an initial lookup that resolves at once when the
    element exists, after which the observer and the timeout are set up
    anyway, with nothing cleared. A lookup that throws makes the executor
    throw, which rejects the promise before anything is set up.
   */
  function Begin(selector: string, query: Dom.Query): (s: WaitState)
    ensures s.uncaught == []
    ensures Find(selector, query).Err? ==>
              s == WaitState(false, false, Rejected(Find(selector, query).error), [])
    ensures Find(selector, query).Ok? ==>
              s.observerConnected && s.timeoutArmed &&
              s.settlement == (match Find(selector, query).value
                               case Some(n) => Resolved(n)
                               case None => Pending)
  {
    match Find(selector, query)
    case Err(e) => WaitState(false, false, Rejected(e), [])
    case Ok(found) =>
      WaitState(true, true, if found.Some? then Resolved(found.value) else Pending, [])
  }

  /** The observer callback, run with the document as it is after a mutation. */
  function OnMutation(s: WaitState, selector: string, query: Dom.Query): (r: WaitState)
    requires s.observerConnected
    ensures var found := Find(selector, query).Ok? && Find(selector, query).value.Some?;
            (r.observerConnected <==> !found) && r.timeoutArmed == (s.timeoutArmed && !found) &&
            (found ==> r.settlement == Resolve(s.settlement, Find(selector, query).value.value)) &&
            (!found ==> r.settlement == s.settlement)
    ensures Find(selector, query).Err? ==> r.uncaught == s.uncaught + [Find(selector, query).error]
    ensures Find(selector, query).Ok? ==> r.uncaught == s.uncaught
  {
    match Find(selector, query)
    case Err(e) => s.(uncaught := s.uncaught + [e])
    case Ok(None) => s
    case Ok(Some(n)) =>
      s.(observerConnected := false, timeoutArmed := false, settlement := Resolve(s.settlement, n))
  }

  /** The timeout callback: disconnect, then reject with a bare string. */
  function OnTimeout(s: WaitState): (r: WaitState)
    requires s.timeoutArmed
    ensures !r.observerConnected && !r.timeoutArmed && r.uncaught == s.uncaught
    ensures s.settlement.Pending? ==> r.settlement == Rejected(Reason(TimedOut))
    ensures s.settlement.Settled() ==> r.settlement == s.settlement
  {
    s.(observerConnected := false, timeoutArmed := false,
       settlement := Reject(s.settlement, Reason(TimedOut)))
  }

  datatype WaitEvent = Mutation(dom: Dom.Query) | TimeoutFired

  /** A disconnected observer or a cleared timer never calls back. */
  function Step(s: WaitState, selector: string, e: WaitEvent): WaitState
  {
    match e
    case Mutation(q) => if s.observerConnected then OnMutation(s, selector, q) else s
    case TimeoutFired => if s.timeoutArmed then OnTimeout(s) else s
  }

  function Run(s: WaitState, selector: string, es: seq<WaitEvent>): WaitState
    decreases |es|
  {
    if es == [] then s else Run(Step(s, selector, es[0]), selector, es[1..])
  }

  /** Reference outcome of a wait that is still live: the first event that settles decides. */
  function FirstSettlement(selector: string, es: seq<WaitEvent>): Settlement<Dom.NodeId>
    decreases |es|
  {
    if es == [] then Pending
    else match es[0]
      case TimeoutFired => Rejected(Reason(TimedOut))
      case Mutation(q) =>
        match Find(selector, q)
        case Ok(Some(n)) => Resolved(n)
        case _ => FirstSettlement(selector, es[1..])
  }

  predicate Live(s: WaitState)
  {
    s.observerConnected && s.timeoutArmed && s.settlement.Pending?
  }

  /** Later `resolve` and `reject` calls have no effect: the first settlement wins. */
  lemma {:induction false} FirstSettlementWins(s: WaitState, selector: string, es: seq<WaitEvent>)
    requires s.settlement.Settled()
    ensures Run(s, selector, es).settlement == s.settlement
    decreases |es|
  {
    if es != [] {
      FirstSettlementWins(Step(s, selector, es[0]), selector, es[1..]);
    }
  }

  /** Once the observer is disconnected and the timer cleared, nothing changes any more. */
  lemma {:induction false} QuietAfterEnd(s: WaitState, selector: string, es: seq<WaitEvent>)
    requires !s.observerConnected && !s.timeoutArmed
    ensures Run(s, selector, es) == s
    decreases |es|
  {
    if es != [] {
      QuietAfterEnd(Step(s, selector, es[0]), selector, es[1..]);
    }
  }

  /** A live wait settles as the first settling event says. */
  lemma {:induction false} LiveWaitSettlesFirst(s: WaitState, selector: string, es: seq<WaitEvent>)
    requires Live(s)
    ensures Run(s, selector, es).settlement == FirstSettlement(selector, es)
    decreases |es|
  {
    if es != [] {
      var t := Step(s, selector, es[0]);
      match es[0]
      case TimeoutFired =>
        FirstSettlementWins(t, selector, es[1..]);
      case Mutation(q) =>
        match Find(selector, q)
        case Ok(Some(n)) =>
          FirstSettlementWins(t, selector, es[1..]);
        case Ok(None) =>
          LiveWaitSettlesFirst(t, selector, es[1..]);
        case Err(_) =>
          LiveWaitSettlesFirst(t, selector, es[1..]);
    }
  }

  /**
    The whole machine: an element present at call time resolves the promise
    at once and no later event changes that; otherwise the first mutation
    that finds the element resolves it and a timeout that comes first
    rejects it with 'Timed out waiting for element.'.
   */
  lemma WaitForElementOutcome(selector: string, query: Dom.Query, es: seq<WaitEvent>)
    ensures Run(Begin(selector, query), selector, es).settlement ==
            match Find(selector, query)
            case Err(e) => Rejected(e)
            case Ok(Some(n)) => Resolved(n)
            case Ok(None) => FirstSettlement(selector, es)
  {
    var s := Begin(selector, query);
    if s.settlement.Settled() {
      FirstSettlementWins(s, selector, es);
    } else {
      LiveWaitSettlesFirst(s, selector, es);
    }
  }

  /**
    An element found at call time resolves the promise but leaves the
    observer connected and the timeout armed; when the timeout later fires it
    disconnects the observer and its `reject` has no effect.
   */
  lemma FoundAtOnceLeavesTimerArmed(selector: string, query: Dom.Query, n: Dom.NodeId)
    requires Find(selector, query) == Ok(Some(n))
    ensures Begin(selector, query).timeoutArmed && Begin(selector, query).observerConnected
    ensures OnTimeout(Begin(selector, query)).settlement == Resolved(n)
    ensures !OnTimeout(Begin(selector, query)).observerConnected
  {
  }

  /** One `waitForElement` call, as the object its callbacks update. */
  class ElementWaiter {
    const selector: string
    const timeout: nat
    var observerConnected: bool
    var timeoutArmed: bool
    var settlement: Settlement<Dom.NodeId>
    var uncaught: seq<Error>

    function State(): WaitState
      reads this
    {
      WaitState(observerConnected, timeoutArmed, settlement, uncaught)
    }

    /** `waitForElement({ selector, timeout })`, on the document `query` describes at call time. */
    constructor (selector: string, query: Dom.Query, timeout: nat := DefaultTimeout)
      ensures this.selector == selector && this.timeout == timeout
      ensures State() == Begin(selector, query)
    {
      this.selector := selector;
      this.timeout := timeout;
      uncaught := [];
      var element := Find(selector, query);
      if element.Err? {
        observerConnected, timeoutArmed := false, false;
        settlement := Rejected(element.error);
      } else {
        var promise: Settlement<Dom.NodeId> := Pending;
        if element.value.Some? {
          promise := Resolve(promise, element.value.value);
        }
        settlement := promise;
        observerConnected := true;
        timeoutArmed := true;
      }
    }

    /** The observer callback after a DOM mutation; `query` describes the document now. */
    method Mutation(query: Dom.Query)
      requires observerConnected
      modifies this
      ensures State() == OnMutation(old(State()), selector, query)
    {
      var element := Find(selector, query);
      if element.Err? {
        uncaught := uncaught + [element.error];
      } else if element.value.Some? {
        observerConnected := false;
        timeoutArmed := false;
        settlement := Resolve(settlement, element.value.value);
      }
    }

    /** The timeout callback. */
    method TimeoutFires()
      requires timeoutArmed
      modifies this
      ensures State() == OnTimeout(old(State()))
    {
      observerConnected := false;
      timeoutArmed := false;
      settlement := Reject(settlement, Reason(TimedOut));
    }
  }

  /* ---------- getArrayOfElements ---------- */

  /**
    The oracles one element lookup consults: the document, and the
    settlement each `waitForElement(selector)` promise reaches.
   */
  datatype LookupContext = LookupContext(query: Dom.Query, waited: string -> Settlement<Dom.NodeId>)

  /** One link of the chain: `Selector.get(parameters)`, awaited. A null match is collected too. */
  function ElementStep(c: LookupContext, arg: SelectorArgument): Settlement<Option<Dom.NodeId>>
  {
    match GetElement(arg, c.query)
    case Err(e) => Rejected(e)
    case Ok(Immediate(found)) => Resolved(found)
    case Ok(Waiting(selector)) =>
      match c.waited(selector)
      case Pending => Pending
      case Rejected(e) => Rejected(e)
      case Resolved(n) => Resolved(Some(n))
  }

  const ArrayFailed := "Failed to get array of elements."

  /** `Selector.getArrayOfElements`: the lookups in input order, stopping at the first failure. */
  method GetArrayOfElements(args: seq<SelectorArgument>, c: LookupContext)
    returns (r: Settlement<seq<Option<Dom.NodeId>>>)
    ensures r == WrapRejection(Collect.Chain(c, args, ElementStep), ArrayFailed)
    ensures r.Resolved? ==>
              |r.value| == |args| &&
              forall k :: 0 <= k < |args| ==> ElementStep(c, args[k]) == Resolved(r.value[k])
    ensures r.Rejected? ==> r.reason.Wrapped? && r.reason.message == ArrayFailed
  {
    var elements: seq<Option<Dom.NodeId>> := [];
    var i := 0;
    while i < |args|
      invariant 0 <= i <= |args| && |elements| == i
      invariant forall k :: 0 <= k < i ==> ElementStep(c, args[k]) == Resolved(elements[k])
    {
      var element := ElementStep(c, args[i]);
      if !element.Resolved? {
        Collect.ChainStopsAt(c, args, ElementStep, i);
        return if element.Pending? then Pending else Rejected(Wrapped(ArrayFailed, element.reason));
      }
      elements := elements + [element.value];
      i := i + 1;
    }
    Collect.ChainResolved(c, args, ElementStep, elements);
    r := Resolved(elements);
  }

  /* ---------- querySelectorAll wrappers ---------- */

  /** `Selector.getList`: `querySelectorAll`, its failure wrapped. */
  function GetList(selector: string, queryAll: Dom.QueryAll): (r: Result<seq<Dom.NodeId>>)
    ensures queryAll(selector).Ok? ==> r == queryAll(selector)
    ensures queryAll(selector).Err? ==>
              r == Err(Wrapped("Failed to get element collection from selector.", queryAll(selector).error))
  {
    WrapErr(queryAll(selector), "Failed to get element collection from selector.")
  }

  /** Every `<script>` element: `getList` with the fixed selector 'script'. */
  function GetListOfScripts(queryAll: Dom.QueryAll): (r: Result<seq<Dom.NodeId>>)
    ensures queryAll("script").Ok? ==> r == queryAll("script")
    ensures queryAll("script").Err? ==>
              r == Err(Wrapped("Failed to get element collection from selector.", queryAll("script").error))
  {
    GetList("script", queryAll)
  }

  /** Every `<style>` element: `getList` with the fixed selector 'style'. */
  function GetListOfStyles(queryAll: Dom.QueryAll): (r: Result<seq<Dom.NodeId>>)
    ensures queryAll("style").Ok? ==> r == queryAll("style")
    ensures queryAll("style").Err? ==>
              r == Err(Wrapped("Failed to get element collection from selector.", queryAll("style").error))
  {
    GetList("style", queryAll)
  }
}
