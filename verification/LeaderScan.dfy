/**
  The daily scans of the inventory service (expiry and reorder have the same loop):
  any number of replicas, each waking once a day, gated by a Redis key that one of
  them sets for 23 hours. Time is in seconds.
*/
module LeaderScan {

  const LOCK_TTL: real := 82800.0
  const DAY: real := 86400.0

  datatype Phase = Sleeping(until: real) | Scanning(until: real)

  datatype Acquisition = Acquisition(time: real, replica: nat, scan: real)

  /** `lockUntil` is when the key expires; `taken` logs every successful SET NX. */
  datatype Cluster = Cluster(now: real, lockUntil: real, replicas: map<nat, Phase>, taken: seq<Acquisition>)

  datatype Step =
    | Tick(dt: real)
    | Start(id: nat)
    | Wake(id: nat, scan: real, redisUp: bool)   // the top of the loop; `scan` is how long a scan would last
    | EndScan(id: nat)                           // the scan returned or raised: both sleep a day
    | Stop(id: nat)

  predicate LockFree(lockUntil: real, now: real) {
    now >= lockUntil
  }

  /** An unreachable Redis falls open: the replica scans without the lock. */
  function WakePhase(lockUntil: real, now: real, scan: real, redisUp: bool): Phase {
    if !redisUp || LockFree(lockUntil, now) then Scanning(now + scan) else Sleeping(now + DAY)
  }

  /** Time may pass until the next scan ends, and at most `late` beyond the end of a sleep. */
  predicate MayTick(c: Cluster, late: real, dt: real) {
    dt > 0.0 && forall id :: id in c.replicas ==>
      c.now + dt <= c.replicas[id].until + if c.replicas[id].Sleeping? then late else 0.0
  }

  function Next(late: real, c: Cluster, step: Step): Cluster {
    match step
    case Tick(dt) => if MayTick(c, late, dt) then c.(now := c.now + dt) else c
    case Start(id) => if id in c.replicas then c else c.(replicas := c.replicas[id := Sleeping(c.now)])
    case Wake(id, scan, redisUp) =>
      if id !in c.replicas || !c.replicas[id].Sleeping? || c.replicas[id].until > c.now || scan < 0.0 then c
      else
        var woken := c.(replicas := c.replicas[id := WakePhase(c.lockUntil, c.now, scan, redisUp)]);
        if redisUp && LockFree(c.lockUntil, c.now)
        then woken.(lockUntil := c.now + LOCK_TTL, taken := c.taken + [Acquisition(c.now, id, scan)])
        else woken
    case EndScan(id) =>
      if id !in c.replicas || !c.replicas[id].Scanning? || c.replicas[id].until > c.now then c
      else c.(replicas := c.replicas[id := Sleeping(c.now + DAY)])
    case Stop(id) => c.(replicas := c.replicas - {id})
  }

  function Run(late: real, c: Cluster, steps: seq<Step>): Cluster
    decreases |steps|
  {
    if steps == [] then c else Run(late, Next(late, c, steps[0]), steps[1..])
  }

  /** No replica running and no key set. */
  function Initial(): Cluster {
    Cluster(0.0, 0.0, map[], [])
  }

  // ----- Scans are at least 23 hours apart -----

  ghost predicate Spaced(taken: seq<Acquisition>) {
    forall i :: 0 < i < |taken| ==> taken[i].time - taken[i - 1].time >= LOCK_TTL
  }

  ghost predicate LockInv(c: Cluster) {
    && Spaced(c.taken)
    && (c.taken == [] ==> c.lockUntil <= c.now)
    && (c.taken != [] ==> c.lockUntil == c.taken[|c.taken| - 1].time + LOCK_TTL && c.taken[|c.taken| - 1].time <= c.now)
  }

  lemma LockNext(late: real, c: Cluster, step: Step)
    requires LockInv(c)
    ensures LockInv(Next(late, c, step))
  {
  }

  lemma {:induction false} LockRun(late: real, c: Cluster, steps: seq<Step>)
    requires LockInv(c)
    ensures LockInv(Run(late, c, steps))
    decreases |steps|
  {
    if steps != [] {
      LockNext(late, c, steps[0]);
      LockRun(late, Next(late, c, steps[0]), steps[1..]);
    }
  }

  lemma {:induction false} SpacedSum(taken: seq<Acquisition>, i: nat, j: nat)
    requires Spaced(taken) && i <= j < |taken|
    ensures taken[j].time - taken[i].time >= (j - i) as real * LOCK_TTL
    decreases j
  {
    if i < j {
      SpacedSum(taken, i, j - 1);
    }
  }

  /**
    In every run, with replicas starting, stopping and Redis failing at will, a
    window of `width` seconds holds at most floor(width / 82800) + 1 acquisitions.
  */
  lemma WindowBound(late: real, steps: seq<Step>, from: real, width: real, i: nat, j: nat)
    requires width >= 0.0
    ensures var taken := Run(late, Initial(), steps).taken;
      i <= j < |taken| && from <= taken[i].time && taken[j].time <= from + width ==>
        j - i + 1 <= (width / LOCK_TTL).Floor + 1
  {
    LockRun(late, Initial(), steps);
    var taken := Run(late, Initial(), steps).taken;
    if i <= j < |taken| && from <= taken[i].time && taken[j].time <= from + width {
      SpacedSum(taken, i, j);
      assert (j - i) as real <= width / LOCK_TTL;
    }
  }

  // ----- And at most a day and a scan apart -----

  /** Redis answers, and the replica that leads does not stop. */
  predicate Healthy(c: Cluster, step: Step) {
    match step
    case Wake(_, _, redisUp) => redisUp
    case Stop(id) => c.taken == [] || c.taken[|c.taken| - 1].replica != id
    case _ => true
  }

  ghost predicate AlwaysHealthy(late: real, c: Cluster, steps: seq<Step>)
    decreases |steps|
  {
    steps == [] || (Healthy(c, steps[0]) && AlwaysHealthy(late, Next(late, c, steps[0]), steps[1..]))
  }

  function Deadline(a: Acquisition, late: real): real {
    a.time + a.scan + DAY + late
  }

  ghost predicate Prompt(taken: seq<Acquisition>, late: real) {
    forall i :: 0 < i < |taken| ==> taken[i].time <= Deadline(taken[i - 1], late)
  }

  ghost predicate PromptInv(late: real, c: Cluster) {
    && Prompt(c.taken, late)
    && (c.taken != [] ==>
          var a := c.taken[|c.taken| - 1];
          && a.scan >= 0.0
          && a.replica in c.replicas
          && (c.replicas[a.replica] == Scanning(a.time + a.scan) || c.replicas[a.replica] == Sleeping(a.time + a.scan + DAY))
          && c.now <= c.replicas[a.replica].until + if c.replicas[a.replica].Sleeping? then late else 0.0)
  }

  lemma PromptNext(late: real, c: Cluster, step: Step)
    requires late >= 0.0 && LockInv(c) && PromptInv(late, c) && Healthy(c, step)
    ensures PromptInv(late, Next(late, c, step))
  {
  }

  lemma {:induction false} PromptRun(late: real, c: Cluster, steps: seq<Step>)
    requires late >= 0.0 && LockInv(c) && PromptInv(late, c) && AlwaysHealthy(late, c, steps)
    ensures PromptInv(late, Run(late, c, steps))
    decreases |steps|
  {
    if steps != [] {
      PromptNext(late, c, steps[0]);
      LockNext(late, c, steps[0]);
      PromptRun(late, Next(late, c, steps[0]), steps[1..]);
    }
  }

  /**
    While Redis answers and the leader stays up, two acquisitions in a row are
    between 23 hours and a day plus the leader's scan apart, and the time since the
    last one never passes that bound. `late` is how late a sleep may end.
  */
  lemma DailyScan(late: real, steps: seq<Step>)
    requires late >= 0.0 && AlwaysHealthy(late, Initial(), steps)
    ensures var c := Run(late, Initial(), steps);
      && (forall i :: 0 < i < |c.taken| ==> LOCK_TTL <= c.taken[i].time - c.taken[i - 1].time <= DAY + c.taken[i - 1].scan + late)
      && (c.taken != [] ==> c.now - c.taken[|c.taken| - 1].time <= DAY + c.taken[|c.taken| - 1].scan + late)
  {
    LockRun(late, Initial(), steps);
    PromptRun(late, Initial(), steps);
    var c := Run(late, Initial(), steps);
    forall i | 0 < i < |c.taken|
      ensures LOCK_TTL <= c.taken[i].time - c.taken[i - 1].time <= DAY + c.taken[i - 1].scan + late
    {
    }
  }

  /** The sleep is at the end of the loop: a replica that finds the key free scans as soon as it starts. */
  lemma FirstPassAtStartup(late: real, c: Cluster, id: nat, scan: real)
    requires id !in c.replicas && c.now >= c.lockUntil && scan >= 0.0
    ensures var c' := Next(late, Next(late, c, Start(id)), Wake(id, scan, true));
      && id in c'.replicas && c'.replicas[id] == Scanning(c.now + scan)
      && c'.taken == c.taken + [Acquisition(c.now, id, scan)] && c'.lockUntil == c.now + 82800.0
  {
  }

  // ----- Failover -----

  /** Sleeps last at most a day and scans at most `bound`. */
  ghost predicate WakesSoon(bound: real, c: Cluster) {
    forall id :: id in c.replicas ==>
      c.replicas[id].until <= c.now + if c.replicas[id].Sleeping? then DAY else bound
  }

  predicate ScansAtMost(step: Step, bound: real) {
    step.Wake? ==> step.scan <= bound
  }

  lemma WakesSoonNext(late: real, bound: real, c: Cluster, step: Step)
    requires WakesSoon(bound, c) && ScansAtMost(step, bound)
    ensures WakesSoon(bound, Next(late, c, step))
  {
  }

  lemma {:induction false} WakesSoonRun(late: real, bound: real, c: Cluster, steps: seq<Step>)
    requires WakesSoon(bound, c) && forall i :: 0 <= i < |steps| ==> ScansAtMost(steps[i], bound)
    ensures WakesSoon(bound, Run(late, c, steps))
    decreases |steps|
  {
    if steps != [] {
      WakesSoonNext(late, bound, c, steps[0]);
      WakesSoonRun(late, bound, Next(late, c, steps[0]), steps[1..]);
    }
  }

  /** Redis answers, scans end within `bound`, and replica `b` does not stop; any other may, the leader too. */
  predicate Stays(b: nat, step: Step, bound: real) {
    ScansAtMost(step, bound) && (step.Wake? ==> step.redisUp) && step != Stop(b)
  }

  /** The later of a moment and the last acquisition. */
  function Since(c: Cluster, from: real): real {
    if c.taken != [] && c.taken[|c.taken| - 1].time > from then c.taken[|c.taken| - 1].time else from
  }

  function Longer(bound: real): real {
    if bound > LOCK_TTL then bound else LOCK_TTL
  }

  ghost predicate FailoverInv(late: real, bound: real, b: nat, from: real, c: Cluster) {
    && LockInv(c) && from <= c.now && b in c.replicas
    && (c.replicas[b].Sleeping? ==> c.replicas[b].until <= Since(c, from) + Longer(bound) + DAY && c.now <= c.replicas[b].until + late)
    && (c.replicas[b].Scanning? ==> c.replicas[b].until <= Since(c, from) + bound && c.now <= c.replicas[b].until)
  }

  lemma FailoverNext(late: real, bound: real, b: nat, from: real, c: Cluster, step: Step)
    requires late >= 0.0 && bound >= 0.0 && FailoverInv(late, bound, b, from, c) && Stays(b, step, bound)
    ensures FailoverInv(late, bound, b, from, Next(late, c, step))
  {
    LockNext(late, c, step);
  }

  lemma {:induction false} FailoverRun(late: real, bound: real, b: nat, from: real, c: Cluster, steps: seq<Step>)
    requires late >= 0.0 && bound >= 0.0 && FailoverInv(late, bound, b, from, c)
    requires forall i :: 0 <= i < |steps| ==> Stays(b, steps[i], bound)
    ensures FailoverInv(late, bound, b, from, Run(late, c, steps))
    decreases |steps|
  {
    if steps != [] {
      assert Stays(b, steps[0], bound);
      FailoverNext(late, bound, b, from, c, steps[0]);
      FailoverRun(late, bound, b, from, Next(late, c, steps[0]), steps[1..]);
    }
  }

  /**
    If any replica stays up, then whoever else stops, the next acquisition is at most a
    day and the longer of lock and scans after the last one, or after the moment from
    which on it stays: the loser of an election sleeps a whole day before it tries again.
  */
  lemma FailoverBound(late: real, bound: real, before: seq<Step>, after: seq<Step>, b: nat)
    requires late >= 0.0 && bound >= 0.0
    requires forall i :: 0 <= i < |before| ==> ScansAtMost(before[i], bound)
    requires forall i :: 0 <= i < |after| ==> Stays(b, after[i], bound)
    ensures var c := Run(late, Initial(), before);
      b in c.replicas && c.now <= c.replicas[b].until + (if c.replicas[b].Sleeping? then late else 0.0) ==>
        var c' := Run(late, c, after);
        c'.now <= Since(c', c.now) + DAY + (if bound > LOCK_TTL then bound else LOCK_TTL) + late
  {
    LockRun(late, Initial(), before);
    WakesSoonRun(late, bound, Initial(), before);
    var c := Run(late, Initial(), before);
    if b in c.replicas && c.now <= c.replicas[b].until + if c.replicas[b].Sleeping? then late else 0.0 {
      FailoverRun(late, bound, b, c.now, c, after);
    }
  }

  // ----- Overlapping scans -----

  predicate ScansWithin(step: Step, bound: real, redisMayFail: bool) {
    step.Wake? ==> (step.redisUp || redisMayFail) && step.scan <= bound
  }

  ghost predicate OneScanner(c: Cluster) {
    forall i, j :: i in c.replicas && j in c.replicas && c.replicas[i].Scanning? && c.replicas[j].Scanning? ==> i == j
  }

  ghost predicate ScanInv(bound: real, c: Cluster) {
    forall id :: id in c.replicas && c.replicas[id].Scanning? ==>
      && c.taken != [] && c.taken[|c.taken| - 1].replica == id
      && c.now <= c.replicas[id].until <= c.taken[|c.taken| - 1].time + bound
  }

  lemma ScanNext(late: real, bound: real, c: Cluster, step: Step)
    requires bound < LOCK_TTL && LockInv(c) && ScanInv(bound, c) && ScansWithin(step, bound, false)
    ensures ScanInv(bound, Next(late, c, step))
  {
  }

  lemma {:induction false} ScanRun(late: real, bound: real, c: Cluster, steps: seq<Step>)
    requires bound < LOCK_TTL && LockInv(c) && ScanInv(bound, c)
    requires forall i :: 0 <= i < |steps| ==> ScansWithin(steps[i], bound, false)
    ensures ScanInv(bound, Run(late, c, steps))
    decreases |steps|
  {
    if steps != [] {
      assert ScansWithin(steps[0], bound, false);
      ScanNext(late, bound, c, steps[0]);
      LockNext(late, c, steps[0]);
      ScanRun(late, bound, Next(late, c, steps[0]), steps[1..]);
    }
  }

  /** No run has two replicas scanning, when scans take at most `bound` and Redis fails only if it may. */
  ghost predicate NeverOverlaps(late: real, bound: real, redisMayFail: bool) {
    forall steps: seq<Step> ::
      (forall i :: 0 <= i < |steps| ==> ScansWithin(steps[i], bound, redisMayFail)) ==> OneScanner(Run(late, Initial(), steps))
  }

  /**
    Replicas never scan at the same time exactly when Redis never fails and scans are
    shorter than the lock: the key is not renewed while a scan runs, and a replica
    that cannot reach Redis scans without it.
  */
  lemma NoOverlapIffLockOutlivesScans(late: real, bound: real, redisMayFail: bool)
    requires bound >= 0.0
    ensures NeverOverlaps(late, bound, redisMayFail) <==> !redisMayFail && bound < LOCK_TTL
  {
    if redisMayFail {
      FailedSetOverlaps(late, bound);
    } else if bound < LOCK_TTL {
      forall steps: seq<Step> | forall i :: 0 <= i < |steps| ==> ScansWithin(steps[i], bound, false)
        ensures OneScanner(Run(late, Initial(), steps))
      {
        ScanRun(late, bound, Initial(), steps);
      }
    } else {
      LongScanOverlaps(late, bound);
    }
  }

  lemma FailedSetOverlaps(late: real, bound: real)
    requires bound >= 0.0
    ensures !NeverOverlaps(late, bound, true)
  {
    var steps := [Start(0), Start(1), Wake(0, bound, true), Wake(1, bound, false)];
    var c0 := Initial();
    var c1 := Next(late, c0, steps[0]);
    var c2 := Next(late, c1, steps[1]);
    var c3 := Next(late, c2, steps[2]);
    var c4 := Next(late, c3, steps[3]);
    assert 0 in c4.replicas && 1 in c4.replicas && c4.replicas[0].Scanning? && c4.replicas[1].Scanning?;
    assert steps[2..][1..] == steps[3..] && steps[1..][1..] == steps[2..];
    assert Run(late, c3, steps[3..]) == c4;
    assert Run(late, c2, steps[2..]) == c4;
    assert Run(late, c1, steps[1..]) == c4;
    assert Run(late, c0, steps) == c4;
  }

  lemma LongScanOverlaps(late: real, bound: real)
    requires bound >= LOCK_TTL
    ensures !NeverOverlaps(late, bound, false)
  {
    var steps := [Start(0), Wake(0, bound, true), Tick(LOCK_TTL), Start(1), Wake(1, 0.0, true)];
    var c0 := Initial();
    var c1 := Next(late, c0, steps[0]);
    var c2 := Next(late, c1, steps[1]);
    assert c2.replicas == map[0 := Scanning(bound)];
    var c3 := Next(late, c2, steps[2]);
    assert c3.now == LOCK_TTL;
    var c4 := Next(late, c3, steps[3]);
    var c5 := Next(late, c4, steps[4]);
    assert 0 in c5.replicas && 1 in c5.replicas && c5.replicas[0].Scanning? && c5.replicas[1].Scanning?;
    assert steps[3..][1..] == steps[4..] && steps[2..][1..] == steps[3..] && steps[1..][1..] == steps[2..];
    assert Run(late, c4, steps[4..]) == c5;
    assert Run(late, c3, steps[3..]) == c5;
    assert Run(late, c2, steps[2..]) == c5;
    assert Run(late, c1, steps[1..]) == c5;
    assert Run(late, c0, steps) == c5;
  }

  // ----- The loop body as written -----

  class RedisKey {
    var lockUntil: real

    constructor ()
      ensures lockUntil == 0.0
    {
      lockUntil := 0.0;
    }

    /** SET key NX EX ttl. */
    method SetNx(now: real, ttl: real) returns (ok: bool)
      modifies this
      ensures ok <==> LockFree(old(lockUntil), now)
      ensures lockUntil == if ok then now + ttl else old(lockUntil)
    {
      ok := now >= lockUntil;
      if ok {
        lockUntil := now + ttl;
      }
    }
  }

  class Replica {
    const id: nat
    var phase: Phase

    constructor (id: nat, now: real)
      ensures this.id == id && phase == Sleeping(now)
    {
      this.id := id;
      phase := Sleeping(now);
    }

    /** One pass through the loop up to its scan or its sleep, in a cluster `c` that this replica and the key belong to. */
    method TopOfLoop(key: RedisKey, now: real, scan: real, redisUp: bool, ghost late: real, ghost c: Cluster) returns (leader: bool)
      requires phase.Sleeping? && phase.until <= now && scan >= 0.0
      requires c.now == now && c.lockUntil == key.lockUntil && id in c.replicas && c.replicas[id] == phase
      modifies this, key
      ensures leader <==> !redisUp || now >= old(key.lockUntil)
      ensures key.lockUntil == if redisUp && now >= old(key.lockUntil) then now + 82800.0 else old(key.lockUntil)
      ensures phase == if leader then Scanning(now + scan) else Sleeping(now + 86400.0)
      ensures var c' := Next(late, c, Wake(id, scan, redisUp));
        && c'.replicas == c.replicas[id := phase] && c'.lockUntil == key.lockUntil
        && (leader <==> phase.Scanning?)
        && (c'.taken != c.taken <==> leader && redisUp)
    {
      leader := false;
      if redisUp {
        leader := key.SetNx(now, LOCK_TTL);
      } else {
        leader := true;
      }
      if leader {
        phase := Scanning(now + scan);
      } else {
        phase := Sleeping(now + DAY);
      }
    }
  }
}
