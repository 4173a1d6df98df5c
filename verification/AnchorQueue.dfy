/**
  The queue around one event's job id: dedup on enqueue, at most `tries` starts
  per enqueued job, the result kept for a while, and the sweep's give-up
  threshold. The theorem is a bound on the attempt counter over every run.
*/
module AnchorQueue {
  import opened Wrappers
  import opened AnchorProtocol
  import Safety = AnchorSafety

  /** The job id's state: absent, waiting, being tried, or finished with its result still kept. */
  datatype Slot = Idle | Queued(tries: nat) | Trying(tries: nat) | Kept

  /** The two settings, both read from ANCHOR_MAX_RETRIES: the worker's max_tries and the sweep's threshold. */
  datatype Limits = Limits(tries: nat, giveUp: nat)

  /** `forced` counts enqueues through the API of an event the sweep had given up. */
  datatype Queue = Queue(world: World, slot: Slot, forced: nat)

  datatype QueueStep =
    | ApiEnqueue              // after an event is created, or by the manual trigger
    | SweepEnqueue
    | StartTry
    | Work(step: Step)        // a step of the run in flight, or of the network
    | Retry                   // the try is over and the job goes back to the queue, as the worker's comment on its raise promises
    | Finish                  // the try is over and the job is done or abandoned
    | Forget                  // the kept result expires

  const THE_RUN: nat := 0

  /** Steps of the one run a job id can have in flight, and of everybody else on the log. */
  predicate OfTheRun(step: Step) {
    step.Settle? || step.Foreign? || (!step.Begin? && step.id == THE_RUN)
  }

  function QueueNext(l: Limits, q: Queue, step: QueueStep): Queue {
    match step
    case ApiEnqueue =>
      if !q.slot.Idle? || q.world.rec.anchored then q
      else q.(slot := Queued(l.tries), forced := q.forced + if q.world.rec.attempts >= l.giveUp then 1 else 0)
    case SweepEnqueue =>
      if !q.slot.Idle? || q.world.rec.anchored || q.world.rec.attempts >= l.giveUp then q
      else q.(slot := Queued(l.tries))
    case StartTry =>
      if !q.slot.Queued? || q.slot.tries == 0 then q
      else q.(slot := Trying(q.slot.tries - 1), world := Next(1, q.world, Begin(THE_RUN)))
    case Work(s) =>
      if OfTheRun(s) then q.(world := Next(1, q.world, s)) else q
    case Retry =>
      if q.slot.Trying? && THE_RUN !in q.world.runs && q.slot.tries > 0 then q.(slot := Queued(q.slot.tries)) else q
    case Finish =>
      if q.slot.Trying? && THE_RUN !in q.world.runs then q.(slot := Kept) else q
    case Forget =>
      if q.slot.Kept? then q.(slot := Idle) else q
  }

  function QueueRun(l: Limits, q: Queue, steps: seq<QueueStep>): Queue
    decreases |steps|
  {
    if steps == [] then q else QueueRun(l, QueueNext(l, q, steps[0]), steps[1..])
  }

  function FreshQueue(hash: string): Queue {
    Queue(Fresh(Event, false, hash), Idle, 0)
  }

  /** Increments the queued job and the run in flight can still cause on an unanchored row. */
  function Outstanding(q: Queue): nat {
    (match q.slot
     case Queued(tries) => tries
     case Trying(tries) => tries
     case _ => 0)
    + if THE_RUN in q.world.runs && !q.world.runs[THE_RUN].Notifying? then 1 else 0
  }

  function Ceiling(l: Limits, forced: nat): int {
    l.giveUp + l.tries - 1 + l.tries * forced
  }

  /** `slack` is 1 when a commit may take effect although the worker sees it fail. */
  ghost predicate QueueInv(l: Limits, slack: nat, q: Queue) {
    && q.world.runs.Keys <= {THE_RUN}
    && (!q.slot.Trying? ==> q.world.runs == map[])
    && q.world.kind.Event?
    && (THE_RUN in q.world.runs && q.world.rec.anchored ==> slack == 1 && q.world.runs[THE_RUN].Handling?)
    && (if q.world.rec.anchored
        then q.world.rec.attempts + (if THE_RUN in q.world.runs then 1 else 0) <= Ceiling(l, q.forced) + slack
        else q.world.rec.attempts + Outstanding(q) <= Ceiling(l, q.forced))
  }

  /** A commit that takes effect although the worker sees it fail: it is counted twice. */
  predicate Ambiguous(step: QueueStep) {
    step.Work? && step.step.Commit? && step.step.result.AppliedThenRaised?
  }

  lemma QueueInvWork(l: Limits, slack: nat, q: Queue, s: Step)
    requires QueueInv(l, slack, q) && slack <= 1
    requires slack == 0 ==> !Ambiguous(Work(s))
    ensures QueueInv(l, slack, QueueNext(l, q, Work(s)))
  {
    if OfTheRun(s) && !s.Settle? && !s.Foreign? && THE_RUN in q.world.runs {
      assert q.world.runs.Keys == {THE_RUN};
    }
  }

  lemma QueueInvNext(l: Limits, slack: nat, q: Queue, step: QueueStep)
    requires QueueInv(l, slack, q) && slack <= 1
    requires slack == 0 ==> !Ambiguous(step)
    ensures QueueInv(l, slack, QueueNext(l, q, step))
  {
    if step.Work? {
      QueueInvWork(l, slack, q, step.step);
    } else if step.ApiEnqueue? {
      assert l.tries * (q.forced + 1) == l.tries * q.forced + l.tries;
    }
  }

  lemma {:induction false} QueueInvRun(l: Limits, slack: nat, q: Queue, steps: seq<QueueStep>)
    requires QueueInv(l, slack, q) && slack <= 1
    requires slack == 0 ==> forall i :: 0 <= i < |steps| ==> !Ambiguous(steps[i])
    ensures QueueInv(l, slack, QueueRun(l, q, steps))
    decreases |steps|
  {
    if steps != [] {
      QueueInvNext(l, slack, q, steps[0]);
      QueueInvRun(l, slack, QueueNext(l, q, steps[0]), steps[1..]);
    }
  }

  // ----- The bound and its tightness -----

  /**
    The attempt counter of an event never exceeds giveUp + tries - 1, plus `tries`
    for every forced enqueue; a commit that hides its success can add one more, on
    an anchored row only.
  */
  lemma AttemptsBounded(l: Limits, hash: string, steps: seq<QueueStep>)
    requires l.tries + l.giveUp >= 1
    ensures var q := QueueRun(l, FreshQueue(hash), steps);
      && (!q.world.rec.anchored ==> q.world.rec.attempts <= Ceiling(l, q.forced))
      && q.world.rec.attempts <= Ceiling(l, q.forced) + 1
      && ((forall i :: 0 <= i < |steps| ==> !Ambiguous(steps[i])) ==> q.world.rec.attempts <= Ceiling(l, q.forced))
  {
    QueueInvRun(l, 1, FreshQueue(hash), steps);
    if forall i :: 0 <= i < |steps| ==> !Ambiguous(steps[i]) {
      QueueInvRun(l, 0, FreshQueue(hash), steps);
    }
  }

  lemma {:induction false} QueueRunConcat(l: Limits, q: Queue, a: seq<QueueStep>, b: seq<QueueStep>)
    ensures QueueRun(l, q, a + b) == QueueRun(l, QueueRun(l, q, a), b)
    decreases |a|
  {
    if a == [] {
      assert a + b == b;
    } else {
      assert (a + b)[0] == a[0] && (a + b)[1..] == a[1..] + b;
      QueueRunConcat(l, QueueNext(l, q, a[0]), a[1..], b);
    }
  }

  /** A row that only ever saw sends fail. */
  function Failing(hash: string, attempts: nat, slot: Slot): Queue {
    Queue(Fresh(Event, false, hash).(rec := Record(hash, false, None, attempts)), slot, 0)
  }

  const FAILED_TRY: seq<QueueStep> := [StartTry, Work(Send(THE_RUN, NotSent)), Work(Handle(THE_RUN, true)), Retry]

  /** `n` failed tries, each back to the queue. */
  function FailedTries(n: nat): seq<QueueStep> {
    if n == 0 then [] else FAILED_TRY + FailedTries(n - 1)
  }

  lemma OneFailedTry(l: Limits, hash: string, attempts: nat, tries: nat)
    ensures QueueRun(l, Failing(hash, attempts, Queued(tries + 1)), FAILED_TRY)
         == Failing(hash, attempts + 1, if tries > 0 then Queued(tries) else Trying(0))
  {
    var q0 := Failing(hash, attempts, Queued(tries + 1));
    var q1 := QueueNext(l, q0, FAILED_TRY[0]);
    var q2 := QueueNext(l, q1, FAILED_TRY[1]);
    var q3 := QueueNext(l, q2, FAILED_TRY[2]);
    assert q1.world.runs == map[THE_RUN := Ready];
    assert q2.world.runs == map[THE_RUN := Handling];
    assert q3.world.runs == map[];
    var q4 := QueueNext(l, q3, FAILED_TRY[3]);
    assert QueueRun(l, q3, FAILED_TRY[3..]) == q4;
    assert FAILED_TRY[2..][1..] == FAILED_TRY[3..] && FAILED_TRY[1..][1..] == FAILED_TRY[2..];
    assert QueueRun(l, q2, FAILED_TRY[2..]) == q4;
    assert QueueRun(l, q1, FAILED_TRY[1..]) == q4;
  }

  lemma {:induction false} ManyFailedTries(l: Limits, hash: string, attempts: nat, tries: nat, n: nat)
    requires n <= tries
    ensures QueueRun(l, Failing(hash, attempts, Queued(tries)), FailedTries(n))
         == Failing(hash, attempts + n, if tries == n > 0 then Trying(0) else Queued(tries - n))
    ensures forall i :: 0 <= i < |FailedTries(n)| ==> !Ambiguous(FailedTries(n)[i])
    decreases n
  {
    if n > 0 {
      OneFailedTry(l, hash, attempts, tries - 1);
      QueueRunConcat(l, Failing(hash, attempts, Queued(tries)), FAILED_TRY, FailedTries(n - 1));
      if n > 1 {
        ManyFailedTries(l, hash, attempts + 1, tries - 1, n - 1);
      }
    }
  }

  const CRASHED_TRY: seq<QueueStep> := [StartTry, Work(Crash(THE_RUN)), Finish, Forget, SweepEnqueue]

  /** A try that crashes costs no attempt; the sweep then grants the event a whole new job. */
  lemma CrashedTry(l: Limits, hash: string, attempts: nat)
    requires attempts < l.giveUp
    ensures QueueRun(l, Failing(hash, attempts, Queued(1)), CRASHED_TRY) == Failing(hash, attempts, Queued(l.tries))
  {
    var q0 := Failing(hash, attempts, Queued(1));
    var q1 := QueueNext(l, q0, CRASHED_TRY[0]);
    var q2 := QueueNext(l, q1, CRASHED_TRY[1]);
    assert q1.world.runs == map[THE_RUN := Ready];
    assert q2.world.runs == map[];
    var q3 := QueueNext(l, q2, CRASHED_TRY[2]);
    var q4 := QueueNext(l, q3, CRASHED_TRY[3]);
    var q5 := QueueNext(l, q4, CRASHED_TRY[4]);
    assert QueueRun(l, q4, CRASHED_TRY[4..]) == q5;
    assert CRASHED_TRY[3..][1..] == CRASHED_TRY[4..] && CRASHED_TRY[2..][1..] == CRASHED_TRY[3..] && CRASHED_TRY[1..][1..] == CRASHED_TRY[2..];
    assert QueueRun(l, q3, CRASHED_TRY[3..]) == q5;
    assert QueueRun(l, q2, CRASHED_TRY[2..]) == q5;
    assert QueueRun(l, q1, CRASHED_TRY[1..]) == q5;
  }

  /** A job whose last try crashes at m - 1 attempts, then the job the sweep grants it, failing every try. */
  function FirstJob(m: nat): seq<QueueStep>
    requires m >= 1
  {
    [ApiEnqueue] + FailedTries(m - 1)
  }

  function SecondJob(m: nat): seq<QueueStep> {
    CRASHED_TRY + FailedTries(m)
  }

  lemma FirstJobRun(m: nat, hash: string)
    requires m >= 1
    ensures QueueRun(Limits(m, m), FreshQueue(hash), FirstJob(m)) == Failing(hash, m - 1, Queued(1))
    ensures forall i :: 0 <= i < |FirstJob(m)| ==> !Ambiguous(FirstJob(m)[i])
  {
    assert FirstJob(m)[1..] == FailedTries(m - 1);
    assert QueueNext(Limits(m, m), FreshQueue(hash), ApiEnqueue) == Failing(hash, 0, Queued(m));
    ManyFailedTries(Limits(m, m), hash, 0, m, m - 1);
  }

  lemma SecondJobRun(m: nat, hash: string)
    requires m >= 1
    ensures QueueRun(Limits(m, m), Failing(hash, m - 1, Queued(1)), SecondJob(m)) == Failing(hash, 2 * m - 1, Trying(0))
    ensures forall i :: 0 <= i < |SecondJob(m)| ==> !Ambiguous(SecondJob(m)[i])
  {
    CrashedTry(Limits(m, m), hash, m - 1);
    QueueRunConcat(Limits(m, m), Failing(hash, m - 1, Queued(1)), CRASHED_TRY, FailedTries(m));
    ManyFailedTries(Limits(m, m), hash, m - 1, m, m);
  }

  /** With both settings m, the counter does reach 2m - 1, without forced enqueues or hidden commits. */
  lemma CeilingIsReached(m: nat, hash: string)
    requires m >= 1
    ensures exists steps: seq<QueueStep> ::
      && (forall i :: 0 <= i < |steps| ==> !Ambiguous(steps[i]))
      && var q := QueueRun(Limits(m, m), FreshQueue(hash), steps);
         q.forced == 0 && q.world.rec.attempts == 2 * m - 1
  {
    FirstJobRun(m, hash);
    SecondJobRun(m, hash);
    QueueRunConcat(Limits(m, m), FreshQueue(hash), FirstJob(m), SecondJob(m));
    var steps := FirstJob(m) + SecondJob(m);
    assert QueueRun(Limits(m, m), FreshQueue(hash), steps) == Failing(hash, 2 * m - 1, Trying(0));
  }

  const HIDDEN_TRY: seq<QueueStep> :=
    [StartTry, Work(Send(THE_RUN, SentOk)), Work(Commit(THE_RUN, AppliedThenRaised)), Work(Handle(THE_RUN, true))]

  /** A try whose commit takes effect but looks failed is counted by the mark and by the except block. */
  lemma HiddenTry(l: Limits, hash: string, attempts: nat)
    ensures var q := QueueRun(l, Failing(hash, attempts, Queued(1)), HIDDEN_TRY);
      q.forced == 0 && q.world.rec.anchored && q.world.rec.attempts == attempts + 2
  {
    var q0 := Failing(hash, attempts, Queued(1));
    var q1 := QueueNext(l, q0, HIDDEN_TRY[0]);
    assert q1.world.runs == map[THE_RUN := Ready];
    var q2 := QueueNext(l, q1, HIDDEN_TRY[1]);
    assert q2.world.runs == map[THE_RUN := Holding(0)] && q2.world.rec == q0.world.rec && q2.world.kind.Event?;
    var q3 := QueueNext(l, q2, HIDDEN_TRY[2]);
    assert q3.world.runs == map[THE_RUN := Handling];
    var q4 := QueueNext(l, q3, HIDDEN_TRY[3]);
    assert QueueRun(l, q3, HIDDEN_TRY[3..]) == q4;
    assert HIDDEN_TRY[2..][1..] == HIDDEN_TRY[3..] && HIDDEN_TRY[1..][1..] == HIDDEN_TRY[2..];
    assert QueueRun(l, q2, HIDDEN_TRY[2..]) == q4;
    assert QueueRun(l, q1, HIDDEN_TRY[1..]) == q4;
  }

  /** A job whose last try crashes, a second one that fails all tries but the last, and there a hidden commit. */
  function HiddenRun(m: nat): seq<QueueStep>
    requires m >= 1
  {
    FirstJob(m) + (CRASHED_TRY + (FailedTries(m - 1) + HIDDEN_TRY))
  }

  /** For every setting m, one hidden commit takes the counter past 2m - 1. */
  lemma HiddenCommitCountsTwice(m: nat, hash: string)
    requires m >= 1
    ensures var q := QueueRun(Limits(m, m), FreshQueue(hash), HiddenRun(m));
      q.forced == 0 && q.world.rec.anchored && q.world.rec.attempts == 2 * m
  {
    var l := Limits(m, m);
    FirstJobRun(m, hash);
    CrashedTry(l, hash, m - 1);
    ManyFailedTries(l, hash, m - 1, m, m - 1);
    HiddenTry(l, hash, 2 * m - 2);
    QueueRunConcat(l, FreshQueue(hash), FirstJob(m), CRASHED_TRY + (FailedTries(m - 1) + HIDDEN_TRY));
    QueueRunConcat(l, Failing(hash, m - 1, Queued(1)), CRASHED_TRY, FailedTries(m - 1) + HIDDEN_TRY);
    QueueRunConcat(l, Failing(hash, m - 1, Queued(m)), FailedTries(m - 1), HIDDEN_TRY);
  }

  /** The counter of an event nobody forced, in every run with or without hidden commits. */
  ghost predicate AttemptsWithin(m: nat, hidden: bool, hash: string) {
    forall steps: seq<QueueStep> ::
      var q := QueueRun(Limits(m, m), FreshQueue(hash), steps);
      (hidden || forall i :: 0 <= i < |steps| ==> !Ambiguous(steps[i])) && q.forced == 0 ==> q.world.rec.attempts <= 2 * m - 1
  }

  /** The exact condition for the bound 2m - 1: no commit hides its success. */
  lemma AttemptsWithinIffNoHiddenCommit(m: nat, hidden: bool, hash: string)
    requires m >= 1
    ensures AttemptsWithin(m, hidden, hash) <==> !hidden
  {
    if hidden {
      HiddenCommitCountsTwice(m, hash);
      var q := QueueRun(Limits(m, m), FreshQueue(hash), HiddenRun(m));
      assert q.world.rec.attempts > 2 * m - 1;
    } else {
      forall steps: seq<QueueStep> | forall i :: 0 <= i < |steps| ==> !Ambiguous(steps[i])
        ensures var q := QueueRun(Limits(m, m), FreshQueue(hash), steps);
          q.forced == 0 ==> q.world.rec.attempts <= 2 * m - 1
      {
        AttemptsBounded(Limits(m, m), hash, steps);
      }
    }
  }

  // ----- Dedup -----

  /** A try that is over leaves its result behind, and while it is kept nothing starts, sends or counts for the event, whoever enqueues it. */
  lemma FinishedJobIsQuiet(l: Limits, q: Queue, steps: seq<QueueStep>)
    requires q.slot.Trying? && q.world.runs == map[] && forall step :: step in steps ==> step != Forget
    ensures var q' := QueueRun(l, QueueNext(l, q, Finish), steps);
      q'.slot == Kept && q'.world.runs == map[] && q'.world.rec == q.world.rec && q'.world.sent == q.world.sent && q'.forced == q.forced
  {
    KeptIsQuiet(l, QueueNext(l, q, Finish), steps);
  }

  lemma {:induction false} KeptIsQuiet(l: Limits, q: Queue, steps: seq<QueueStep>)
    requires q.slot == Kept && q.world.runs == map[] && forall step :: step in steps ==> step != Forget
    ensures var q' := QueueRun(l, q, steps);
      q'.slot == Kept && q'.world.runs == map[] && q'.world.rec == q.world.rec && q'.world.sent == q.world.sent && q'.forced == q.forced
    decreases |steps|
  {
    if steps != [] {
      assert steps[0] in steps;
      assert forall step :: step in steps[1..] ==> step in steps;
      KeptIsQuiet(l, QueueNext(l, q, steps[0]), steps[1..]);
    }
  }

  /** A queued or running job is not replaced either: its tries are not granted anew. */
  lemma EnqueueIsDeduplicated(l: Limits, q: Queue, step: QueueStep)
    requires step == ApiEnqueue || step == SweepEnqueue
    ensures q.slot != Idle || q.world.rec.anchored ==> QueueNext(l, q, step) == q
    ensures step == SweepEnqueue && q.world.rec.attempts >= l.giveUp ==> QueueNext(l, q, step) == q
    ensures q.slot == Idle && !q.world.rec.anchored && (step == ApiEnqueue || q.world.rec.attempts < l.giveUp) ==>
      QueueNext(l, q, step).slot == Queued(l.tries)
  {
  }

  // ----- The queue only restricts the protocol -----

  /** The protocol steps inside a run of the queue. */
  function Projection(l: Limits, q: Queue, steps: seq<QueueStep>): seq<Step>
    decreases |steps|
  {
    if steps == [] then []
    else
      (match steps[0]
       case StartTry => if q.slot.Queued? && q.slot.tries > 0 then [Begin(THE_RUN)] else []
       case Work(s) => if OfTheRun(s) then [s] else []
       case _ => [])
      + Projection(l, QueueNext(l, q, steps[0]), steps[1..])
  }

  lemma {:induction false} QueueRefinesProtocol(l: Limits, q: Queue, steps: seq<QueueStep>)
    ensures QueueRun(l, q, steps).world == Run(1, q.world, Projection(l, q, steps))
    decreases |steps|
  {
    if steps != [] {
      var q' := QueueNext(l, q, steps[0]);
      QueueRefinesProtocol(l, q', steps[1..]);
      var rest := Projection(l, q', steps[1..]);
      var all := Projection(l, q, steps);
      if all != rest {
        assert all[1..] == rest;
      }
    }
  }

  /** So a queued event costs at most one memo more than the memos whose signature was lost. */
  lemma QueuedMemoBound(l: Limits, hash: string, steps: seq<QueueStep>)
    ensures var w := QueueRun(l, FreshQueue(hash), steps).world;
      |w.sent| <= 1 + w.lost && (w.rec.sig.Some? <==> w.rec.anchored)
  {
    var w0 := Fresh(Event, false, hash);
    QueueRefinesProtocol(l, FreshQueue(hash), steps);
    Safety.MemoBound(1, w0, Projection(l, FreshQueue(hash), steps));
    Safety.RecoveryUnreachable(1, w0, Projection(l, FreshQueue(hash), steps));
  }
}
