/** The worker's retry delay: exponential with jitter, for every jitter the generator may draw. */
module AnchorBackoff {

  function Pow2(n: nat): nat {
    if n == 0 then 1 else 2 * Pow2(n - 1)
  }

  function Base(attempt: nat): nat {
    if Pow2(attempt) < 300 then Pow2(attempt) else 300
  }

  /** What random.uniform(0, base * 0.2) may return. */
  ghost predicate Drawn(attempt: nat, jitter: real) {
    0.0 <= jitter <= Base(attempt) as real * 0.2
  }

  /** int(base + jitter), in whole seconds. */
  function Delay(attempt: nat, jitter: real): int {
    (Base(attempt) as real + jitter).Floor
  }

  lemma {:induction false} Pow2Grows(m: nat, n: nat)
    requires m <= n
    ensures 0 < Pow2(m) <= Pow2(n)
  {
    if n == 0 {
    } else if m < n {
      Pow2Grows(m, n - 1);
    } else {
      Pow2Grows(m - 1, n - 1);
    }
  }

  lemma Pow2Eight()
    ensures Pow2(8) == 256 && Pow2(9) == 512 && Pow2(7) == 128
  {
    assert Pow2(3) == 8;
    assert Pow2(6) == 64;
  }

  lemma DelayBounds(attempt: nat, jitter: real)
    requires Drawn(attempt, jitter)
    ensures Base(attempt) <= Delay(attempt, jitter) && 5 * Delay(attempt, jitter) <= 6 * Base(attempt)
  {
    var b := Base(attempt);
    assert Delay(attempt, jitter) as real <= b as real + jitter;
    assert 5.0 * (Delay(attempt, jitter) as real) <= 6.0 * (b as real);
  }

  /** The documented ceiling of five minutes holds for every jitter exactly up to attempt 7. */
  lemma FiveMinuteCeiling(attempt: nat)
    ensures (forall jitter: real :: Drawn(attempt, jitter) ==> Delay(attempt, jitter) <= 300) <==> attempt <= 7
  {
    Pow2Eight();
    if attempt <= 7 {
      Pow2Grows(attempt, 7);
      forall jitter: real | Drawn(attempt, jitter)
        ensures Delay(attempt, jitter) <= 300
      {
        DelayBounds(attempt, jitter);
      }
    } else {
      Pow2Grows(8, attempt);
      var jitter := Base(attempt) as real * 0.2;
      assert Drawn(attempt, jitter);
      assert Base(attempt) as real + jitter >= 307.0;
      assert Delay(attempt, jitter) >= 307;
    }
  }

  /** Up to attempt 8 every delay is longer than the previous one, whatever the two draws. */
  lemma DelayIncreases(attempt: nat, j: real, j': real)
    requires 1 <= attempt < 8 && Drawn(attempt, j) && Drawn(attempt + 1, j')
    ensures Delay(attempt, j) < Delay(attempt + 1, j')
  {
    Pow2Eight();
    Pow2Grows(attempt, 7);
    Pow2Grows(attempt + 1, 8);
    DelayBounds(attempt, j);
    DelayBounds(attempt + 1, j');
    Pow2Grows(0, attempt);
  }

  /** The total wait over the attempts 1, 2, ..., one per draw. */
  function Total(jitters: seq<real>): int {
    if jitters == [] then 0
    else Total(jitters[..|jitters| - 1]) + Delay(|jitters|, jitters[|jitters| - 1])
  }

  /** The closed form of the sum of the bases. */
  function BaseTotal(n: nat): int {
    if n <= 8 then Pow2(n + 1) - 2 else 510 + 300 * (n - 8)
  }

  lemma BaseTotalStep(n: nat)
    requires n >= 1
    ensures BaseTotal(n) == BaseTotal(n - 1) + Base(n)
  {
    Pow2Eight();
    if n <= 8 {
      Pow2Grows(n, 8);
    } else {
      Pow2Grows(9, n);
    }
  }

  /** The total over n attempts lies between the sum of the bases and 1.2 times it. */
  lemma {:induction false} TotalBounds(jitters: seq<real>)
    requires forall i :: 0 <= i < |jitters| ==> Drawn(i + 1, jitters[i])
    ensures BaseTotal(|jitters|) <= Total(jitters) && 5 * Total(jitters) <= 6 * BaseTotal(|jitters|)
  {
    if jitters != [] {
      var n := |jitters|;
      BaseTotalStep(n);
      assert Drawn(n - 1 + 1, jitters[n - 1]);
      DelayBounds(n, jitters[n - 1]);
      TotalBounds(jitters[..n - 1]);
    }
  }
}
