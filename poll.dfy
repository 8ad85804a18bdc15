/**
  The interval-plus-timeout poll shared by the function and object waiters.

  A waiter arms an interval and a timeout together and checks nothing at
  call time. Each interval tick probes the window: a hit clears both timers
  and resolves the promise; a miss changes nothing; a probe that throws
  leaves the error uncaught in the timer callback and the interval running.
  When the timeout fires it clears the interval and throws inside its own
  callback, so the promise is never settled by it.

  Timers are events in the order they fire; there is no clock.
 */
module Poll {
  import opened Js

  /** What one interval tick saw. */
  datatype Probe<T> = Found(value: T) | Absent | Threw(error: Error)

  datatype Event<T> = Tick(probe: Probe<T>) | TimeoutFired

  /**
    The observable state of one waiter: which timers are armed, the
    promise, how many checks ran, and the errors thrown inside callbacks
    (which nothing catches).
   */
  datatype State<T> = State(
    intervalArmed: bool,
    timeoutArmed: bool,
    settlement: Settlement<T>,
    checks: nat,
    uncaught: seq<Error>)

  /** Right after the call: both timers armed, nothing checked yet. */
  function Start<T>(): State<T>
  {
    State(true, true, Pending, 0, [])
  }

  /** Both timers are gone: no callback will ever run again. */
  predicate Ended<T>(s: State<T>)
  {
    !s.intervalArmed && !s.timeoutArmed
  }

  /** One interval callback. */
  function OnTick<T>(s: State<T>, probe: Probe<T>): (r: State<T>)
    requires s.intervalArmed
    ensures r.checks == s.checks + 1
    ensures (r.intervalArmed <==> !probe.Found?) && r.timeoutArmed == (s.timeoutArmed && !probe.Found?)
    ensures probe.Found? && s.settlement.Pending? ==> r.settlement == Resolved(probe.value)
    ensures !probe.Found? || s.settlement.Settled() ==> r.settlement == s.settlement
    ensures r.uncaught == s.uncaught + (if probe.Threw? then [probe.error] else [])
  {
    var checked := s.(checks := s.checks + 1);
    match probe
    case Found(v) => checked.(intervalArmed := false, timeoutArmed := false, settlement := Resolve(s.settlement, v))
    case Absent => checked
    case Threw(e) => checked.(uncaught := s.uncaught + [e])
  }

  /** The timeout callback: clear the interval, then throw `timeoutError`. */
  function OnTimeout<T>(s: State<T>, timeoutError: Error): (r: State<T>)
    requires s.timeoutArmed
    ensures Ended(r)
    ensures r.settlement == s.settlement && r.checks == s.checks
    ensures r.uncaught == s.uncaught + [timeoutError]
  {
    s.(intervalArmed := false, timeoutArmed := false, uncaught := s.uncaught + [timeoutError])
  }

  /** A cleared timer's callback never runs. */
  function Step<T>(s: State<T>, e: Event<T>, timeoutError: Error): State<T>
  {
    match e
    case Tick(probe) => if s.intervalArmed then OnTick(s, probe) else s
    case TimeoutFired => if s.timeoutArmed then OnTimeout(s, timeoutError) else s
  }

  function Run<T>(s: State<T>, es: seq<Event<T>>, timeoutError: Error): State<T>
    decreases |es|
  {
    if es == [] then s else Run(Step(s, es[0], timeoutError), es[1..], timeoutError)
  }

  predicate Finds<T>(e: Event<T>)
  {
    e.Tick? && e.probe.Found?
  }

  /** The reference outcome: the first hit resolves, unless the timeout fires before it. */
  function Outcome<T>(es: seq<Event<T>>): (r: Settlement<T>)
    ensures !r.Rejected?
  {
    if es == [] then Pending
    else if es[0].TimeoutFired? then Pending
    else if es[0].probe.Found? then Resolved(es[0].probe.value)
    else Outcome(es[1..])
  }

  /** How many checks run: every tick up to and including the first hit, none after the timeout. */
  function ChecksBeforeEnd<T>(es: seq<Event<T>>): nat
  {
    if es == [] || es[0].TimeoutFired? then 0
    else if es[0].probe.Found? then 1
    else 1 + ChecksBeforeEnd(es[1..])
  }

  /** Once both timers are gone nothing changes any more: no check, no second resolution, no new error. */
  lemma {:induction false} QuietAfterEnd<T>(s: State<T>, es: seq<Event<T>>, timeoutError: Error)
    requires Ended(s)
    ensures Run(s, es, timeoutError) == s
    decreases |es|
  {
    if es != [] {
      QuietAfterEnd(s, es[1..], timeoutError);
    }
  }

  /** A live waiter settles as the reference outcome says, after the checks it counts. */
  lemma {:induction false} LiveRun<T>(s: State<T>, es: seq<Event<T>>, timeoutError: Error)
    requires s.intervalArmed && s.timeoutArmed && s.settlement.Pending?
    ensures Run(s, es, timeoutError).settlement == Outcome(es)
    ensures Run(s, es, timeoutError).checks == s.checks + ChecksBeforeEnd(es)
    decreases |es|
  {
    if es != [] {
      var next := Step(s, es[0], timeoutError);
      if Finds(es[0]) || es[0].TimeoutFired? {
        QuietAfterEnd(next, es[1..], timeoutError);
      } else {
        LiveRun(next, es[1..], timeoutError);
      }
    }
  }

  /**
    The whole call: the promise resolves with the value of the first hit
    unless the timeout fires before it, and is never rejected; one check
    runs per tick until the end, none before the first tick.
   */
  lemma WaitOutcome<T>(es: seq<Event<T>>, timeoutError: Error)
    ensures Run(Start(), es, timeoutError).settlement == Outcome(es)
    ensures !Run(Start(), es, timeoutError).settlement.Rejected?
    ensures Run(Start(), es, timeoutError).checks == ChecksBeforeEnd(es)
  {
    LiveRun(Start(), es, timeoutError);
  }

  /** The reference outcome resolves with `v` exactly when the first hit, before any timeout, found `v`. */
  lemma {:induction false} OutcomeResolved<T>(es: seq<Event<T>>, v: T)
    ensures Outcome(es) == Resolved(v) <==>
            exists k :: 0 <= k < |es| && es[k] == Tick(Found(v)) &&
                        forall j :: 0 <= j < k ==> es[j].Tick? && !es[j].probe.Found?
  {
    if es != [] {
      OutcomeResolved(es[1..], v);
      if Outcome(es) == Resolved(v) && !Finds(es[0]) {
        var k :| 0 <= k < |es[1..]| && es[1..][k] == Tick(Found(v)) &&
                 forall j :: 0 <= j < k ==> es[1..][j].Tick? && !es[1..][j].probe.Found?;
        assert es[k + 1] == Tick(Found(v));
        forall j | 0 <= j < k + 1 ensures es[j].Tick? && !es[j].probe.Found? {
          if j > 0 { assert es[j] == es[1..][j - 1]; }
        }
      }
      if exists k :: 0 <= k < |es| && es[k] == Tick(Found(v)) &&
                     forall j :: 0 <= j < k ==> es[j].Tick? && !es[j].probe.Found? {
        var k :| 0 <= k < |es| && es[k] == Tick(Found(v)) &&
                 forall j :: 0 <= j < k ==> es[j].Tick? && !es[j].probe.Found?;
        if k > 0 {
          assert es[1..][k - 1] == Tick(Found(v));
          forall j | 0 <= j < k - 1 ensures es[1..][j].Tick? && !es[1..][j].probe.Found? {
            assert es[1..][j] == es[j + 1];
          }
        }
      }
    }
  }

  /**
    When the timeout fires before any hit, the promise stays pending for
    ever, both timers are gone, and the timeout's error is the last one
    thrown.
   */
  lemma {:induction false} TimeoutFirst<T>(s: State<T>, es: seq<Event<T>>, timeoutError: Error, k: nat)
    requires s.intervalArmed && s.timeoutArmed && s.settlement.Pending?
    requires k < |es| && es[k].TimeoutFired?
    requires forall j :: 0 <= j < k ==> es[j].Tick? && !es[j].probe.Found?
    ensures var r := Run(s, es, timeoutError);
            r.settlement.Pending? && Ended(r) && |r.uncaught| > 0 && r.uncaught[|r.uncaught| - 1] == timeoutError
    decreases |es|
  {
    var next := Step(s, es[0], timeoutError);
    if k == 0 {
      QuietAfterEnd(next, es[1..], timeoutError);
    } else {
      forall j | 0 <= j < k - 1 ensures es[1..][j].Tick? && !es[1..][j].probe.Found? {
        assert es[1..][j] == es[j + 1];
      }
      TimeoutFirst(next, es[1..], timeoutError, k - 1);
    }
  }
}
