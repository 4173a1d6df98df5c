/**
  The attempt counter of a generic anchor request. Unlike the one of events it is
  not incremented by the database: the job adds one to the value its session loaded,
  when it began or after a rollback, and writes that back. Jobs of one request
  overlap, so increments can be lost.
*/
module AnchorAttempts {

  /** `seen` is the value each running job's session holds; `failures` counts the increments committed. */
  datatype Request = Request(attempts: nat, failures: nat, seen: map<nat, nat>)

  datatype Step =
    | Begin(id: nat)
    | Reload(id: nat)  // a rollback expired the row and the except block loads it again
    | Fail(id: nat)    // the increment of the except block is committed, and the job ends
    | End(id: nat)

  const FRESH := Request(0, 0, map[])

  /** At most `k` jobs of the request run at once. */
  function Next(k: nat, r: Request, step: Step): Request {
    match step
    case Begin(id) => if id in r.seen || |r.seen| >= k then r else r.(seen := r.seen[id := r.attempts])
    case Reload(id) => if id !in r.seen then r else r.(seen := r.seen[id := r.attempts])
    case Fail(id) => if id !in r.seen then r else Request(r.seen[id] + 1, r.failures + 1, r.seen - {id})
    case End(id) => r.(seen := r.seen - {id})
  }

  function Run(k: nat, r: Request, steps: seq<Step>): Request
    decreases |steps|
  {
    if steps == [] then r else Run(k, Next(k, r, steps[0]), steps[1..])
  }

  lemma {:induction false} RunConcat(k: nat, r: Request, a: seq<Step>, b: seq<Step>)
    ensures Run(k, r, a + b) == Run(k, Run(k, r, a), b)
    decreases |a|
  {
    if a == [] {
      assert a + b == b;
    } else {
      assert (a + b)[0] == a[0] && (a + b)[1..] == a[1..] + b;
      RunConcat(k, Next(k, r, a[0]), a[1..], b);
    }
  }

  // ----- Bounds in every run -----

  ghost predicate Inv(k: nat, r: Request) {
    && |r.seen| <= k
    && (forall id :: id in r.seen ==> r.seen[id] <= r.failures)
    && (r.failures > 0 ==> 1 <= r.attempts) && r.attempts <= r.failures
    && (k <= 1 ==> r.attempts == r.failures && forall id :: id in r.seen ==> r.seen[id] == r.attempts)
  }

  lemma Shrinks(seen: map<nat, nat>, id: nat)
    ensures |seen - {id}| == if id in seen then |seen| - 1 else |seen|
  {
    assert (seen - {id}).Keys == seen.Keys - {id};
  }

  lemma Grows(seen: map<nat, nat>, id: nat, n: nat)
    ensures |seen[id := n]| == if id in seen then |seen| else |seen| + 1
  {
    assert seen[id := n].Keys == seen.Keys + {id};
  }

  lemma InvNext(k: nat, r: Request, step: Step)
    requires Inv(k, r)
    ensures Inv(k, Next(k, r, step))
  {
    Shrinks(r.seen, step.id);
    Grows(r.seen, step.id, r.attempts);
    if step.Fail? && step.id in r.seen && k <= 1 {
      assert r.seen - {step.id} == map[];
    }
  }

  lemma {:induction false} InvRun(k: nat, r: Request, steps: seq<Step>)
    requires Inv(k, r)
    ensures Inv(k, Run(k, r, steps))
    decreases |steps|
  {
    if steps != [] {
      InvNext(k, r, steps[0]);
      InvRun(k, Next(k, r, steps[0]), steps[1..]);
    }
  }

  /** The counter is at least 1 once an increment was committed, and never above their number. */
  lemma AttemptsBetween(k: nat, steps: seq<Step>)
    ensures var r := Run(k, FRESH, steps);
      r.attempts <= r.failures && (r.failures > 0 ==> 1 <= r.attempts)
  {
    InvRun(k, FRESH, steps);
  }

  // ----- No better lower bound -----

  /** `n` jobs that fail one after the other beside job 0. */
  function Failures(n: nat): seq<Step> {
    if n == 0 then [] else Failures(n - 1) + [Begin(1), Fail(1)]
  }

  /** Job 0 begins first and fails last. */
  function Stale(n: nat): seq<Step> {
    [Begin(0)] + (Failures(n) + [Fail(0)])
  }

  lemma {:induction false} FailuresRun(k: nat, r: Request, n: nat)
    requires k >= 2 && r == Request(0, 0, map[0 := 0])
    ensures Run(k, r, Failures(n)) == Request(n, n, map[0 := 0])
  {
    if n > 0 {
      FailuresRun(k, r, n - 1);
      var r0 := Request(n - 1, n - 1, map[0 := 0]);
      RunConcat(k, r, Failures(n - 1), [Begin(1), Fail(1)]);
      var r1 := Next(k, r0, Begin(1));
      assert r1.seen == map[0 := 0, 1 := n - 1];
      var r2 := Next(k, r1, Fail(1));
      assert r2.seen == map[0 := 0];
      assert [Begin(1), Fail(1)][1..] == [Fail(1)];
      assert Run(k, r1, [Fail(1)]) == r2;
    }
  }

  /** Two overlapping jobs can throw a counter of any height back to 1: the sweep's threshold then never sees it. */
  lemma CounterFallsBack(k: nat, n: nat)
    requires k >= 2
    ensures Run(k, FRESH, [Begin(0)] + Failures(n)).attempts == n
    ensures Run(k, FRESH, Stale(n)).attempts == 1 && Run(k, FRESH, Stale(n)).failures == n + 1
  {
    var r := Request(0, 0, map[0 := 0]);
    assert Run(k, FRESH, [Begin(0)]) == r;
    FailuresRun(k, r, n);
    RunConcat(k, FRESH, [Begin(0)], Failures(n));
    RunConcat(k, FRESH, [Begin(0)], Failures(n) + [Fail(0)]);
    RunConcat(k, r, Failures(n), [Fail(0)]);
    var r1 := Request(n, n, map[0 := 0]);
    assert Run(k, r1, [Fail(0)]) == Next(k, r1, Fail(0));
  }

  /** The counter is the number of committed increments, in every run, if and only if jobs of a request do not overlap. */
  lemma CounterExactIffOneJob(k: nat)
    ensures (forall steps :: Run(k, FRESH, steps).attempts == Run(k, FRESH, steps).failures) <==> k <= 1
  {
    if k <= 1 {
      forall steps
        ensures Run(k, FRESH, steps).attempts == Run(k, FRESH, steps).failures
      {
        InvRun(k, FRESH, steps);
      }
    } else {
      CounterFallsBack(k, 1);
      assert Run(k, FRESH, Stale(1)).attempts != Run(k, FRESH, Stale(1)).failures;
    }
  }
}
