/**
  The toolkit's two bulk patterns, stated once.

  `Each` is a synchronous loop inside one `try`: each parameter is handled in
  input order, its result pushed onto an accumulator, and the first throw
  ends the loop.

  `Chain` is a promise chain `p = p.then(() => step(x)).then(v => acc.push(v))`
  built over the parameters: each step waits for the previous one, the first
  rejection skips every later step, and a step that never settles leaves the
  whole chain pending.

  A step is a named function of a context (the oracles it consults) and one
  parameter, so that every caller denotes the same function value.
 */
module Collect {
  import opened Js

  function Each<C, P, T>(c: C, ps: seq<P>, step: (C, P) -> Result<T>): Result<seq<T>>
  {
    if ps == [] then Ok([])
    else
      match step(c, ps[0])
      case Err(e) => Err(e)
      case Ok(x) =>
        match Each(c, ps[1..], step)
        case Err(e) => Err(e)
        case Ok(xs) => Ok([x] + xs)
  }

  /** The loop succeeds exactly when every step does, with one result per parameter, in order. */
  lemma {:induction false} EachOk<C, P, T>(c: C, ps: seq<P>, step: (C, P) -> Result<T>, xs: seq<T>)
    ensures Each(c, ps, step) == Ok(xs) <==>
            |xs| == |ps| && forall k :: 0 <= k < |ps| ==> step(c, ps[k]) == Ok(xs[k])
  {
    if ps != [] {
      if |xs| > 0 {
        EachOk(c, ps[1..], step, xs[1..]);
        assert [xs[0]] + xs[1..] == xs;
        if |xs| == |ps| && forall k :: 0 <= k < |ps| ==> step(c, ps[k]) == Ok(xs[k]) {
          assert step(c, ps[0]) == Ok(xs[0]);
          assert forall k :: 0 <= k < |ps[1..]| ==> step(c, ps[1..][k]) == Ok(xs[1..][k]) by {
            forall k | 0 <= k < |ps[1..]| ensures step(c, ps[1..][k]) == Ok(xs[1..][k]) {
              assert step(c, ps[k + 1]) == Ok(xs[k + 1]);
            }
          }
        }
        if Each(c, ps, step) == Ok(xs) {
          assert step(c, ps[0]) == Ok(xs[0]);
          forall k | 0 <= k < |ps| ensures step(c, ps[k]) == Ok(xs[k]) {
            if k > 0 { assert ps[1..][k - 1] == ps[k]; }
          }
        }
      } else {
        EachLength(c, ps, step);
      }
    }
  }

  lemma {:induction false} EachLength<C, P, T>(c: C, ps: seq<P>, step: (C, P) -> Result<T>)
    ensures Each(c, ps, step).Ok? ==> |Each(c, ps, step).value| == |ps|
  {
    if ps != [] {
      EachLength(c, ps[1..], step);
    }
  }

  /**
    The loop fails with `e` exactly when some step throws `e` and every step
    before it succeeded: the first failure decides, and later steps never run.
   */
  lemma {:induction false} EachErr<C, P, T>(c: C, ps: seq<P>, step: (C, P) -> Result<T>, e: Error)
    ensures Each(c, ps, step) == Err(e) <==>
            exists k :: 0 <= k < |ps| && step(c, ps[k]) == Err(e) &&
                        forall j :: 0 <= j < k ==> step(c, ps[j]).Ok?
  {
    if ps != [] {
      EachErr(c, ps[1..], step, e);
      if Each(c, ps, step) == Err(e) {
        if step(c, ps[0]).Ok? {
          var k :| 0 <= k < |ps[1..]| && step(c, ps[1..][k]) == Err(e) &&
                   forall j :: 0 <= j < k ==> step(c, ps[1..][j]).Ok?;
          assert step(c, ps[k + 1]) == Err(e);
          forall j | 0 <= j < k + 1 ensures step(c, ps[j]).Ok? {
            if j > 0 { assert ps[1..][j - 1] == ps[j]; }
          }
        } else {
          assert step(c, ps[0]) == Err(e);
        }
      }
      if exists k :: 0 <= k < |ps| && step(c, ps[k]) == Err(e) &&
                     forall j :: 0 <= j < k ==> step(c, ps[j]).Ok? {
        var k :| 0 <= k < |ps| && step(c, ps[k]) == Err(e) &&
                 forall j :: 0 <= j < k ==> step(c, ps[j]).Ok?;
        if k > 0 {
          assert step(c, ps[0]).Ok?;
          assert step(c, ps[1..][k - 1]) == Err(e);
          assert forall j :: 0 <= j < k - 1 ==> step(c, ps[1..][j]).Ok? by {
            forall j | 0 <= j < k - 1 ensures step(c, ps[1..][j]).Ok? {
              assert step(c, ps[j + 1]).Ok?;
            }
          }
        }
      }
    }
  }

  /** The loop ends at the first step that throws, with that step's error. */
  lemma EachStopsAt<C, P, T>(c: C, ps: seq<P>, step: (C, P) -> Result<T>, k: nat)
    requires k < |ps| && step(c, ps[k]).Err?
    requires forall j :: 0 <= j < k ==> step(c, ps[j]).Ok?
    ensures Each(c, ps, step) == Err(step(c, ps[k]).error)
  {
    EachErr(c, ps, step, step(c, ps[k]).error);
  }

  function Prepend<T>(x: T, rest: Settlement<seq<T>>): Settlement<seq<T>>
  {
    match rest
    case Resolved(xs) => Resolved([x] + xs)
    case other => other
  }

  function Chain<C, P, T>(c: C, ps: seq<P>, step: (C, P) -> Settlement<T>): Settlement<seq<T>>
  {
    if ps == [] then Resolved([])
    else
      match step(c, ps[0])
      case Pending => Pending
      case Rejected(e) => Rejected(e)
      case Resolved(x) => Prepend(x, Chain(c, ps[1..], step))
  }

  /** The chain fulfils exactly when every step does, with one value per parameter, in order. */
  lemma {:induction false} ChainResolved<C, P, T>(c: C, ps: seq<P>, step: (C, P) -> Settlement<T>, xs: seq<T>)
    ensures Chain(c, ps, step) == Resolved(xs) <==>
            |xs| == |ps| && forall k :: 0 <= k < |ps| ==> step(c, ps[k]) == Resolved(xs[k])
  {
    if ps != [] {
      ChainShape(c, ps, step);
      if |xs| > 0 {
        ChainResolved(c, ps[1..], step, xs[1..]);
        assert [xs[0]] + xs[1..] == xs;
        if |xs| == |ps| && forall k :: 0 <= k < |ps| ==> step(c, ps[k]) == Resolved(xs[k]) {
          assert step(c, ps[0]) == Resolved(xs[0]);
          assert forall k :: 0 <= k < |ps[1..]| ==> step(c, ps[1..][k]) == Resolved(xs[1..][k]) by {
            forall k | 0 <= k < |ps[1..]| ensures step(c, ps[1..][k]) == Resolved(xs[1..][k]) {
              assert step(c, ps[k + 1]) == Resolved(xs[k + 1]);
            }
          }
        }
        if Chain(c, ps, step) == Resolved(xs) {
          assert step(c, ps[0]) == Resolved(xs[0]);
          forall k | 0 <= k < |ps| ensures step(c, ps[k]) == Resolved(xs[k]) {
            if k > 0 { assert ps[1..][k - 1] == ps[k]; }
          }
        }
      }
    }
  }

  lemma {:induction false} ChainShape<C, P, T>(c: C, ps: seq<P>, step: (C, P) -> Settlement<T>)
    ensures Chain(c, ps, step).Resolved? ==> |Chain(c, ps, step).value| == |ps|
  {
    if ps != [] {
      ChainShape(c, ps[1..], step);
    }
  }

  /**
    The chain ends in the first step that does not fulfil: every step before
    it fulfilled, and the chain is rejected with that step's reason, or stays
    pending when that step never settles.
   */
  lemma {:induction false} ChainStopsAt<C, P, T>(c: C, ps: seq<P>, step: (C, P) -> Settlement<T>, k: nat)
    requires k < |ps| && !step(c, ps[k]).Resolved?
    requires forall j :: 0 <= j < k ==> step(c, ps[j]).Resolved?
    ensures Chain(c, ps, step) == if step(c, ps[k]).Pending? then Pending else Rejected(step(c, ps[k]).reason)
  {
    if k > 0 {
      assert step(c, ps[0]).Resolved?;
      assert ps[1..][k - 1] == ps[k];
      forall j | 0 <= j < k - 1 ensures step(c, ps[1..][j]).Resolved? {
        assert ps[1..][j] == ps[j + 1];
      }
      ChainStopsAt(c, ps[1..], step, k - 1);
    }
  }

  /** The first step of the chain that does not fulfil, when there is one. */
  lemma {:induction false} FirstUnresolved<C, P, T>(c: C, ps: seq<P>, step: (C, P) -> Settlement<T>) returns (k: nat)
    requires exists j :: 0 <= j < |ps| && !step(c, ps[j]).Resolved?
    ensures k < |ps| && !step(c, ps[k]).Resolved?
    ensures forall j :: 0 <= j < k ==> step(c, ps[j]).Resolved?
  {
    if !step(c, ps[0]).Resolved? {
      k := 0;
    } else {
      var j :| 0 <= j < |ps| && !step(c, ps[j]).Resolved?;
      assert ps[1..][j - 1] == ps[j];
      var k' := FirstUnresolved(c, ps[1..], step);
      k := k' + 1;
      forall j | 0 < j < k ensures step(c, ps[j]).Resolved? {
        assert ps[j] == ps[1..][j - 1];
      }
    }
  }
}
