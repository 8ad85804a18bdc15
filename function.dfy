/**
  FunctionFn: waiting for a global function to appear, and reading the
  parameters of a function call out of the page's inline scripts.
 */
module FunctionFn {
  import opened Js
  import Strings
  import Poll

  const DefaultInterval := 50
  const DefaultTimeout := 15000

  /** What one tick of `wait` sees: `window[functionName] instanceof Function`. Reading a global never throws. */
  function FunctionProbe(w: Window, functionName: string): Poll.Probe<()>
  {
    if IsFunction(Global(w, functionName)) then Poll.Found(()) else Poll.Absent
  }

  function WaitTimeoutError(functionName: string, timeout: nat): Error
  {
    Error("Failed to wait for function " + functionName + " after " + Strings.NatToString(timeout) + "ms. Function not found.")
  }

  /**
    `typeof window[firstLevel] !== undefined`: the left side is always a
    string and the right side the value `undefined`, so the comparison is
    never equal.
   */
  predicate GuardPasses(w: Window, firstLevel: string)
  {
    !StrictEquals(Str(TypeOf(Global(w, firstLevel))), Undefined)
  }

  lemma GuardAlwaysPasses(w: Window, firstLevel: string)
    ensures GuardPasses(w, firstLevel)
  {
  }

  /**
    What one tick of `waitFor2ndLevel` sees: `window[firstLevel][secondLevel]`;
    reading it throws a TypeError while the first level is undefined or null.
   */
  function SecondLevelProbe(w: Window, firstLevel: string, secondLevel: string): Poll.Probe<JsValue>
  {
    if !GuardPasses(w, firstLevel) then Poll.Absent
    else
      match GetProperty(Global(w, firstLevel), secondLevel, w.prototypes)
      case Err(e) => Poll.Threw(e)
      case Ok(v) => if IsFunction(v) then Poll.Found(v) else Poll.Absent
  }

  /**
    A tick finds exactly a function the read reaches at the second level,
    a primitive's prototype methods included; it throws exactly while the
    first level is nullish (the guard filters nothing).
   */
  lemma SecondLevelProbeMeaning(w: Window, firstLevel: string, secondLevel: string)
    ensures var first := Global(w, firstLevel);
            SecondLevelProbe(w, firstLevel, secondLevel).Threw? <==> first.Undefined? || first.Null?
    ensures var first := Global(w, firstLevel);
            SecondLevelProbe(w, firstLevel, secondLevel).Found? <==>
              !first.Undefined? && !first.Null? &&
              secondLevel in Reachable(first, w.prototypes) && IsFunction(Reachable(first, w.prototypes)[secondLevel])
    ensures var first := Global(w, firstLevel);
            SecondLevelProbe(w, firstLevel, secondLevel).Found? ==>
              SecondLevelProbe(w, firstLevel, secondLevel).value == Reachable(first, w.prototypes)[secondLevel]
  {
    GuardAlwaysPasses(w, firstLevel);
  }

  /** A string global reaches `String.prototype.toString`, so the wait for `name.toString` finds it. */
  lemma StringPrototypeMethodFound(w: Window, toString: JsValue)
    requires Global(w, "name") == Str("x")
    requires Lookup(w.prototypes.stringMembers, "toString") == toString && toString.Function?
    ensures SecondLevelProbe(w, "name", "toString") == Poll.Found(toString)
  {
    GuardAlwaysPasses(w, "name");
  }

  function SecondLevelTimeoutError(firstLevel: string, secondLevel: string, timeout: nat): Error
  {
    Error("Failed to wait for second level function " + firstLevel + "." + secondLevel + " after " +
          Strings.NatToString(timeout) + "ms. Function not found.")
  }

  /**
    `FunctionFn.wait`: the interval and the timeout, armed together. The
    promise resolves with no value; nothing ever rejects it.
   */
  class Wait {
    const functionName: string
    const interval: nat
    const timeout: nat
    var intervalArmed: bool
    var timeoutArmed: bool
    var settlement: Settlement<()>
    ghost var checks: nat
    ghost var uncaught: seq<Error>

    ghost function State(): Poll.State<()>
      reads this
    {
      Poll.State(intervalArmed, timeoutArmed, settlement, checks, uncaught)
    }

    /** `wait({ functionName, interval, timeout })`: nothing is checked before the first tick. */
    constructor (functionName: string, interval: nat := DefaultInterval, timeout: nat := DefaultTimeout)
      ensures this.functionName == functionName && this.interval == interval && this.timeout == timeout
      ensures State() == Poll.Start()
    {
      this.functionName := functionName;
      this.interval := interval;
      this.timeout := timeout;
      intervalArmed, timeoutArmed := true, true;
      settlement := Pending;
      checks, uncaught := 0, [];
    }

    /** The interval callback, on the window as it is now. */
    method Tick(w: Window)
      requires intervalArmed
      modifies this
      ensures State() == Poll.OnTick(old(State()), FunctionProbe(w, functionName))
    {
      checks := checks + 1;
      var functionToCheck := Global(w, functionName);
      if IsFunction(functionToCheck) {
        timeoutArmed := false;
        intervalArmed := false;
        settlement := Resolve(settlement, ());
      }
    }

    /** The timeout callback: clears the interval and throws, settling nothing. */
    method TimeoutFires()
      requires timeoutArmed
      modifies this
      ensures State() == Poll.OnTimeout(old(State()), WaitTimeoutError(functionName, timeout))
    {
      intervalArmed := false;
      timeoutArmed := false;
      uncaught := uncaught + [WaitTimeoutError(functionName, timeout)];
    }
  }

  /** `FunctionFn.waitFor2ndLevel`: resolves with the function found at `window[firstLevel][secondLevel]`. */
  class WaitFor2ndLevel {
    const firstLevel: string
    const secondLevel: string
    const interval: nat
    const timeout: nat
    var intervalArmed: bool
    var timeoutArmed: bool
    var settlement: Settlement<JsValue>
    ghost var checks: nat
    ghost var uncaught: seq<Error>

    ghost function State(): Poll.State<JsValue>
      reads this
    {
      Poll.State(intervalArmed, timeoutArmed, settlement, checks, uncaught)
    }

    constructor (firstLevel: string, secondLevel: string, interval: nat := DefaultInterval, timeout: nat := DefaultTimeout)
      ensures this.firstLevel == firstLevel && this.secondLevel == secondLevel
      ensures this.interval == interval && this.timeout == timeout
      ensures State() == Poll.Start()
    {
      this.firstLevel := firstLevel;
      this.secondLevel := secondLevel;
      this.interval := interval;
      this.timeout := timeout;
      intervalArmed, timeoutArmed := true, true;
      settlement := Pending;
      checks, uncaught := 0, [];
    }

    /** The interval callback; a nullish first level makes it throw, and the interval keeps running. */
    method Tick(w: Window)
      requires intervalArmed
      modifies this
      ensures State() == Poll.OnTick(old(State()), SecondLevelProbe(w, firstLevel, secondLevel))
    {
      checks := checks + 1;
      if !StrictEquals(Str(TypeOf(Global(w, firstLevel))), Undefined) {
        var functionToCheck := GetProperty(Global(w, firstLevel), secondLevel, w.prototypes);
        if functionToCheck.Err? {
          uncaught := uncaught + [functionToCheck.error];
        } else if IsFunction(functionToCheck.value) {
          timeoutArmed := false;
          intervalArmed := false;
          settlement := Resolve(settlement, functionToCheck.value);
        }
      }
    }

    method TimeoutFires()
      requires timeoutArmed
      modifies this
      ensures State() == Poll.OnTimeout(old(State()), SecondLevelTimeoutError(firstLevel, secondLevel, timeout))
    {
      intervalArmed := false;
      timeoutArmed := false;
      uncaught := uncaught + [SecondLevelTimeoutError(firstLevel, secondLevel, timeout)];
    }
  }

  /* ---------- getList, getOriginalParameters ---------- */

  /**
    One match of the function-call pattern: group 2 (the called name,
    dotted) and group 5 (the text between the parentheses).
   */
  datatype CallMatch = CallMatch(name: string, arguments: string)

  /** The pattern's matches in one script's text, in order; the regular expression itself is not modelled. */
  type Matcher = string -> seq<CallMatch>

  /** Every match of every script, script by script, each script's matches in order. */
  function AllMatches(contents: seq<string>, matchesOf: Matcher): seq<CallMatch>
  {
    if contents == [] then []
    else AllMatches(contents[..|contents| - 1], matchesOf) + matchesOf(contents[|contents| - 1])
  }

  /** `FunctionFn.getList` over the inline text of the page's scripts, in document order. */
  method GetList(contents: seq<string>, matchesOf: Matcher) returns (functionList: seq<CallMatch>)
    ensures functionList == AllMatches(contents, matchesOf)
  {
    functionList := [];
    for i := 0 to |contents|
      invariant functionList == AllMatches(contents[..i], matchesOf)
    {
      var matchesArray := matchesOf(contents[i]);
      assert contents[..i + 1][..i] == contents[..i];
      ghost var before := functionList;
      for j := 0 to |matchesArray|
        invariant functionList == before + matchesArray[..j]
      {
        assert matchesArray[..j + 1] == matchesArray[..j] + [matchesArray[j]];
        functionList := functionList + [matchesArray[j]];
      }
      assert matchesArray[..|matchesArray|] == matchesArray;
    }
    assert contents[..|contents|] == contents;
  }

  /** The matches of a page split in two are those of the first part followed by those of the second. */
  lemma {:induction false} AllMatchesAppend(a: seq<string>, b: seq<string>, matchesOf: Matcher)
    ensures AllMatches(a + b, matchesOf) == AllMatches(a, matchesOf) + AllMatches(b, matchesOf)
    decreases |b|
  {
    if b != [] {
      var c := a + b;
      assert c[..|c| - 1] == a + b[..|b| - 1];
      assert c[|c| - 1] == b[|b| - 1];
      AllMatchesAppend(a, b[..|b| - 1], matchesOf);
    } else {
      assert a + b == a;
    }
  }

  /** A match is listed exactly when some script yields it. */
  lemma {:induction false} AllMatchesMembers(contents: seq<string>, matchesOf: Matcher, m: CallMatch)
    ensures m in AllMatches(contents, matchesOf) <==> exists i :: 0 <= i < |contents| && m in matchesOf(contents[i])
  {
    if contents != [] {
      var earlier := contents[..|contents| - 1];
      AllMatchesMembers(earlier, matchesOf, m);
      if exists i :: 0 <= i < |contents| && m in matchesOf(contents[i]) {
        var i :| 0 <= i < |contents| && m in matchesOf(contents[i]);
        if i < |earlier| { assert earlier[i] == contents[i]; }
      }
      if exists i :: 0 <= i < |earlier| && m in matchesOf(earlier[i]) {
        var i :| 0 <= i < |earlier| && m in matchesOf(earlier[i]);
        assert earlier[i] == contents[i];
      }
    }
  }

  const ParametersFailed := "Failed to get original function parameters from script list."
  const NameNotFound := "Function name not found."

  /** The first match, in list order, whose name includes `functionName`: its comma-separated arguments. */
  function FirstParameters(list: seq<CallMatch>, functionName: string): Result<seq<string>>
  {
    if list == [] then Err(Error(NameNotFound))
    else if Strings.Includes(list[0].name, functionName) then Ok(Strings.Split(list[0].arguments, ','))
    else FirstParameters(list[1..], functionName)
  }

  /**
    `FunctionFn.getOriginalParameters`: the ','-split arguments of the first
    match whose name includes `functionName` (the default '' matches the
    first call of all); without one, 'Function name not found.' wrapped as
    'Failed to get original function parameters from script list.'.
   */
  method GetOriginalParameters(contents: seq<string>, matchesOf: Matcher, functionName: string := "")
    returns (r: Result<seq<string>>)
    ensures r == WrapErr(FirstParameters(AllMatches(contents, matchesOf), functionName), ParametersFailed)
  {
    var functionList := GetList(contents, matchesOf);
    for k := 0 to |functionList|
      invariant FirstParameters(functionList, functionName) == FirstParameters(functionList[k..], functionName)
    {
      assert functionList[k..][1..] == functionList[k + 1..];
      var currentScript := functionList[k].name;
      if Strings.Includes(currentScript, functionName) {
        return Ok(Strings.Split(functionList[k].arguments, ','));
      }
    }
    return Err(Wrapped(ParametersFailed, Error(NameNotFound)));
  }

  /**
    The selection succeeds exactly when some match's name includes the name;
    it then takes the first such match, and joining its parts with ','
    gives back that match's argument text.
   */
  lemma {:induction false} FirstParametersMeaning(list: seq<CallMatch>, functionName: string)
    ensures FirstParameters(list, functionName).Ok? <==>
            exists k :: 0 <= k < |list| && Strings.Includes(list[k].name, functionName)
    ensures FirstParameters(list, functionName).Err? ==> FirstParameters(list, functionName) == Err(Error(NameNotFound))
    ensures FirstParameters(list, functionName).Ok? ==>
            exists k :: 0 <= k < |list| && Strings.Includes(list[k].name, functionName) &&
                        (forall j :: 0 <= j < k ==> !Strings.Includes(list[j].name, functionName)) &&
                        FirstParameters(list, functionName).value == Strings.Split(list[k].arguments, ',') &&
                        Strings.Join(FirstParameters(list, functionName).value, ',') == list[k].arguments
  {
    if list != [] {
      FirstParametersMeaning(list[1..], functionName);
      if Strings.Includes(list[0].name, functionName) {
        Strings.JoinSplit(list[0].arguments, ',');
      } else {
        if exists k :: 0 <= k < |list| && Strings.Includes(list[k].name, functionName) {
          var k :| 0 <= k < |list| && Strings.Includes(list[k].name, functionName);
          assert list[1..][k - 1] == list[k];
        }
        if FirstParameters(list, functionName).Ok? {
          var k :| 0 <= k < |list[1..]| && Strings.Includes(list[1..][k].name, functionName) &&
                   (forall j :: 0 <= j < k ==> !Strings.Includes(list[1..][j].name, functionName)) &&
                   FirstParameters(list[1..], functionName).value == Strings.Split(list[1..][k].arguments, ',') &&
                   Strings.Join(FirstParameters(list[1..], functionName).value, ',') == list[1..][k].arguments;
          assert list[k + 1] == list[1..][k];
          forall j | 0 <= j < k + 1 ensures !Strings.Includes(list[j].name, functionName) {
            if j > 0 { assert list[j] == list[1..][j - 1]; }
          }
        }
      }
    }
  }

  /** With the default name every call qualifies, so the page's first call wins. */
  lemma DefaultNameTakesFirst(list: seq<CallMatch>)
    requires list != []
    ensures FirstParameters(list, "") == Ok(Strings.Split(list[0].arguments, ','))
  {
    Strings.IncludesEmpty(list[0].name);
  }
}
