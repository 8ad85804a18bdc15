/**
  ObjectFn: waiting for a global object, or an object one level below a
  global, to appear.
 */
module ObjectFn {
  import opened Js
  import Poll

  const DefaultInterval := 50
  const DefaultTimeout := 15000

  const TimedOut := "Timed out waiting for object."
  const SecondLevelTimedOut := "Timed out waiting for second level object."

  /** What one tick of `wait` sees: `window[objectName]`, kept when it is `instanceof Object`. */
  function ObjectProbe(w: Window, objectName: string): Poll.Probe<JsValue>
  {
    var objectToCheck := Global(w, objectName);
    if IsObject(objectToCheck) then Poll.Found(objectToCheck) else Poll.Absent
  }

  /** The guard `typeof window[firstLevel] !== undefined` compares a string with `undefined`. */
  predicate GuardPasses(w: Window, firstLevel: string)
  {
    !StrictEquals(Str(TypeOf(Global(w, firstLevel))), Undefined)
  }

  /** What one tick of `waitFor2ndLevel` sees; reading below a nullish first level throws a TypeError. */
  function SecondLevelProbe(w: Window, firstLevel: string, secondLevel: string): Poll.Probe<JsValue>
  {
    if !GuardPasses(w, firstLevel) then Poll.Absent
    else
      match GetProperty(Global(w, firstLevel), secondLevel, w.prototypes)
      case Err(e) => Poll.Threw(e)
      case Ok(v) => if IsObject(v) then Poll.Found(v) else Poll.Absent
  }

  /**
    A `wait` tick finds exactly a global that is a function or an object
    (never null, undefined or a primitive), and hands back that very value.
   */
  lemma ObjectProbeMeaning(w: Window, objectName: string)
    ensures ObjectProbe(w, objectName).Found? <==>
            objectName in w.globals && (w.globals[objectName].Object? || w.globals[objectName].Function?)
    ensures ObjectProbe(w, objectName).Found? ==> ObjectProbe(w, objectName).value == w.globals[objectName]
    ensures !ObjectProbe(w, objectName).Threw?
  {
  }

  /**
    A second-level tick finds exactly an object or function the read
    reaches below the first level, a primitive's prototype members
    included, and throws exactly while the first level is nullish: the
    guard filters nothing.
   */
  lemma SecondLevelProbeMeaning(w: Window, firstLevel: string, secondLevel: string)
    ensures var first := Global(w, firstLevel);
            SecondLevelProbe(w, firstLevel, secondLevel).Threw? <==> first.Undefined? || first.Null?
    ensures var first := Global(w, firstLevel);
            SecondLevelProbe(w, firstLevel, secondLevel).Found? <==>
              !first.Undefined? && !first.Null? &&
              secondLevel in Reachable(first, w.prototypes) && IsObject(Reachable(first, w.prototypes)[secondLevel])
    ensures var first := Global(w, firstLevel);
            SecondLevelProbe(w, firstLevel, secondLevel).Found? ==>
              SecondLevelProbe(w, firstLevel, secondLevel).value == Reachable(first, w.prototypes)[secondLevel]
  {
    assert GuardPasses(w, firstLevel);
  }

  /** A string global reaches `String.prototype.toString`, an object, so the wait for `name.toString` finds it. */
  lemma StringPrototypeMemberFound(w: Window, member: JsValue)
    requires Global(w, "name") == Str("x")
    requires Lookup(w.prototypes.stringMembers, "toString") == member && IsObject(member)
    ensures SecondLevelProbe(w, "name", "toString") == Poll.Found(member)
  {
    assert GuardPasses(w, "name");
  }

  /** `ObjectFn.wait`: resolves with the object itself; the timeout throws 'Timed out waiting for object.'. */
  class Wait {
    const objectName: string
    const interval: nat
    const timeout: nat
    var intervalArmed: bool
    var timeoutArmed: bool
    var settlement: Settlement<JsValue>
    ghost var checks: nat
    ghost var uncaught: seq<Error>

    ghost function State(): Poll.State<JsValue>
      reads this
    {
      Poll.State(intervalArmed, timeoutArmed, settlement, checks, uncaught)
    }

    constructor (objectName: string, interval: nat := DefaultInterval, timeout: nat := DefaultTimeout)
      ensures this.objectName == objectName && this.interval == interval && this.timeout == timeout
      ensures State() == Poll.Start()
    {
      this.objectName := objectName;
      this.interval := interval;
      this.timeout := timeout;
      intervalArmed, timeoutArmed := true, true;
      settlement := Pending;
      checks, uncaught := 0, [];
    }

    method Tick(w: Window)
      requires intervalArmed
      modifies this
      ensures State() == Poll.OnTick(old(State()), ObjectProbe(w, objectName))
    {
      checks := checks + 1;
      var objectToCheck := Global(w, objectName);
      if IsObject(objectToCheck) {
        timeoutArmed := false;
        intervalArmed := false;
        settlement := Resolve(settlement, objectToCheck);
      }
    }

    method TimeoutFires()
      requires timeoutArmed
      modifies this
      ensures State() == Poll.OnTimeout(old(State()), Error(TimedOut))
    {
      intervalArmed := false;
      timeoutArmed := false;
      uncaught := uncaught + [Error(TimedOut)];
    }
  }

  /** `ObjectFn.waitFor2ndLevel`: resolves with `window[firstLevel][secondLevel]` once it is an object. */
  class WaitFor2ndLevel {
    const firstLevel: string
    const secondLevel: string
    const interval: nat
    const timeout: nat
    var intervalArmed: bool
    var timeoutArmed: bool
    var settlement: Settlement<JsValue>
    ghost var checks: nat
    ghost var uncaught: seq<Error>

    ghost function State(): Poll.State<JsValue>
      reads this
    {
      Poll.State(intervalArmed, timeoutArmed, settlement, checks, uncaught)
    }

    constructor (firstLevel: string, secondLevel: string, interval: nat := DefaultInterval, timeout: nat := DefaultTimeout)
      ensures this.firstLevel == firstLevel && this.secondLevel == secondLevel
      ensures this.interval == interval && this.timeout == timeout
      ensures State() == Poll.Start()
    {
      this.firstLevel := firstLevel;
      this.secondLevel := secondLevel;
      this.interval := interval;
      this.timeout := timeout;
      intervalArmed, timeoutArmed := true, true;
      settlement := Pending;
      checks, uncaught := 0, [];
    }

    method Tick(w: Window)
      requires intervalArmed
      modifies this
      ensures State() == Poll.OnTick(old(State()), SecondLevelProbe(w, firstLevel, secondLevel))
    {
      checks := checks + 1;
      if !StrictEquals(Str(TypeOf(Global(w, firstLevel))), Undefined) {
        var objectToCheck := GetProperty(Global(w, firstLevel), secondLevel, w.prototypes);
        if objectToCheck.Err? {
          uncaught := uncaught + [objectToCheck.error];
        } else if IsObject(objectToCheck.value) {
          timeoutArmed := false;
          intervalArmed := false;
          settlement := Resolve(settlement, objectToCheck.value);
        }
      }
    }

    method TimeoutFires()
      requires timeoutArmed
      modifies this
      ensures State() == Poll.OnTimeout(old(State()), Error(SecondLevelTimedOut))
    {
      intervalArmed := false;
      timeoutArmed := false;
      uncaught := uncaught + [Error(SecondLevelTimedOut)];
    }
  }
}
