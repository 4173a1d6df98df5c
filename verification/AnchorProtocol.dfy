/**
  The anchoring protocol of the trace-service worker, for one row: `anchor_event`
  on a custody event or `anchor_generic` on an anchor request.

  A job run is cut at its awaits, the points where another run, a crash or the
  network can intervene. Every step is a total function: a step that is not
  possible in a state leaves it alone, so a run of the protocol is simply any
  sequence of steps and the theorems in `AnchorSafety` quantify over all of them.
*/
module AnchorProtocol {
  import opened Wrappers

  /** Which of the two jobs: they differ in the attempt counter and the callback. */
  datatype Kind = Event | Generic

  /** What the network does with a transaction after the RPC node accepted it. */
  datatype Fate = Pending | Landed | Dropped

  /** A memo transaction accepted by the RPC node; its index in the chain log is its signature. */
  datatype Submission = Submission(memo: string, fate: Fate)

  /** The columns of the row that the worker reads or writes. */
  datatype Record = Record(hash: string, anchored: bool, sig: Option<nat>, attempts: nat)

  /** Where a run of a job stands between two awaits. */
  datatype Phase =
    | Looking(sig: nat)      // tx_exists on a recorded signature is outstanding
    | Recovering(sig: nat)   // it answered yes: mark and commit are outstanding
    | Ready                  // send_memo is outstanding
    | Holding(sig: nat)      // send_memo returned: mark and commit are outstanding
    | Handling               // in the except block: increment and commit are outstanding
    | Notifying(sig: nat)    // committed: the callback is outstanding

  /** How send_memo ends: nothing left the worker, the memo left but the call raised, or it returned. */
  datatype SendResult = NotSent | SentThenRaised | SentOk

  /** How mark-and-commit ends: a lost connection can hide a commit that took effect. */
  datatype CommitResult = Applied | NotApplied | AppliedThenRaised

  datatype Step =
    | Begin(id: nat)
    | Lookup(id: nat, found: bool)
    | Recover(id: nat, result: CommitResult)
    | Send(id: nat, sent: SendResult)
    | Commit(id: nat, result: CommitResult)
    | Handle(id: nat, applied: bool)
    | Notify(id: nat)
    | Crash(id: nat)
    | Settle(sig: nat, lands: bool)
    | Foreign(memo: string)  // a job of another row, or another program, has its memo accepted

  /**
    One row and the log it shares with everybody else. `sent` are the signatures of
    the memos accepted for this row, `marks` those of the marks applied after a
    send, and `lost` counts the accepted memos whose signature no run holds and no
    commit recorded.
  */
  datatype World = World(
    kind: Kind,
    hasCallback: bool,
    rec: Record,
    chain: seq<Submission>,
    runs: map<nat, Phase>,
    sent: seq<nat>,
    marks: seq<nat>,
    lost: nat,
    callbacks: seq<nat>)

  /** The UPDATE of mark_anchored; only the event repository also counts the attempt. */
  function Mark(kind: Kind, rec: Record, sig: nat): Record {
    rec.(anchored := true, sig := Some(sig),
         attempts := rec.attempts + if kind.Event? then 1 else 0)
  }

  /** The UPDATE of the except block. */
  function Bump(rec: Record): Record {
    rec.(attempts := rec.attempts + 1)
  }

  function SetPhase(w: World, id: nat, phase: Phase): World {
    w.(runs := w.runs[id := phase])
  }

  function EndRun(w: World, id: nat): World {
    w.(runs := w.runs - {id})
  }

  function Submit(w: World): World {
    w.(chain := w.chain + [Submission(w.rec.hash, Pending)], sent := w.sent + [|w.chain|])
  }

  predicate OnChain(w: World, sig: nat) {
    sig < |w.chain| && w.chain[sig].fate.Landed?
  }

  /** SELECT the row; at most `k` runs are in flight, and an anchored row ends the run at once. */
  function BeginRun(k: nat, w: World, id: nat): World {
    if id in w.runs || |w.runs| >= k || w.rec.anchored then w
    else if w.rec.sig.Some? then SetPhase(w, id, Looking(w.rec.sig.value))
    else SetPhase(w, id, Ready)
  }

  /** tx_exists answers; an error counts as no, and only a landed transaction can be found. */
  function LookUp(w: World, id: nat, found: bool): World {
    if id !in w.runs || !w.runs[id].Looking? then w
    else if found && OnChain(w, w.runs[id].sig) then SetPhase(w, id, Recovering(w.runs[id].sig))
    else SetPhase(w, id, Ready)
  }

  /** Mark and commit of the recovery branch: outside the try block, and without a callback. */
  function RecoverRow(w: World, id: nat, result: CommitResult): World {
    if id !in w.runs || !w.runs[id].Recovering? then w
    else if result.NotApplied? then EndRun(w, id)
    else EndRun(w.(rec := Mark(w.kind, w.rec, w.runs[id].sig)), id)
  }

  function SendMemo(w: World, id: nat, sent: SendResult): World {
    if id !in w.runs || !w.runs[id].Ready? then w
    else match sent
      case NotSent => SetPhase(w, id, Handling)
      case SentThenRaised => SetPhase(Submit(w).(lost := w.lost + 1), id, Handling)
      case SentOk => SetPhase(Submit(w), id, Holding(|w.chain|))
  }

  function Marked(w: World, sig: nat): World {
    w.(rec := Mark(w.kind, w.rec, sig), marks := w.marks + [sig])
  }

  /** Mark and commit after a send; a failed commit discards the staged signature. */
  function CommitMark(w: World, id: nat, result: CommitResult): World {
    if id !in w.runs || !w.runs[id].Holding? then w
    else match result
      case NotApplied => SetPhase(w.(lost := w.lost + 1), id, Handling)
      case AppliedThenRaised => SetPhase(Marked(w, w.runs[id].sig), id, Handling)
      case Applied =>
        if w.kind.Generic? && w.hasCallback then SetPhase(Marked(w, w.runs[id].sig), id, Notifying(w.runs[id].sig))
        else EndRun(Marked(w, w.runs[id].sig), id)
  }

  /** Increment and commit of the except block, which may fail too; the run then raises. */
  function HandleError(w: World, id: nat, applied: bool): World {
    if id !in w.runs || !w.runs[id].Handling? then w
    else EndRun(if applied then w.(rec := Bump(w.rec)) else w, id)
  }

  function FireCallback(w: World, id: nat): World {
    if id !in w.runs || !w.runs[id].Notifying? then w
    else EndRun(w.(callbacks := w.callbacks + [w.runs[id].sig]), id)
  }

  /** The worker dies or the job is cancelled; a signature held in memory is gone. */
  function CrashRun(w: World, id: nat): World {
    if id !in w.runs then w
    else EndRun(if w.runs[id].Holding? then w.(lost := w.lost + 1) else w, id)
  }

  /** The network decides about an accepted transaction, once. */
  function SettleSubmission(w: World, sig: nat, lands: bool): World {
    if sig < |w.chain| && w.chain[sig].fate.Pending?
    then w.(chain := w.chain[sig := w.chain[sig].(fate := if lands then Landed else Dropped)])
    else w
  }

  function Next(k: nat, w: World, step: Step): World {
    match step
    case Begin(id) => BeginRun(k, w, id)
    case Lookup(id, found) => LookUp(w, id, found)
    case Recover(id, result) => RecoverRow(w, id, result)
    case Send(id, sent) => SendMemo(w, id, sent)
    case Commit(id, result) => CommitMark(w, id, result)
    case Handle(id, applied) => HandleError(w, id, applied)
    case Notify(id) => FireCallback(w, id)
    case Crash(id) => CrashRun(w, id)
    case Settle(sig, lands) => SettleSubmission(w, sig, lands)
    case Foreign(memo) => w.(chain := w.chain + [Submission(memo, Pending)])
  }

  function Run(k: nat, w: World, steps: seq<Step>): World
    decreases |steps|
  {
    if steps == [] then w else Run(k, Next(k, w, steps[0]), steps[1..])
  }

  lemma {:induction false} RunConcat(k: nat, w: World, a: seq<Step>, b: seq<Step>)
    ensures Run(k, w, a + b) == Run(k, Run(k, w, a), b)
    decreases |a|
  {
    if a == [] {
      assert a + b == b;
    } else {
      assert (a + b)[0] == a[0] && (a + b)[1..] == a[1..] + b;
      RunConcat(k, Next(k, w, a[0]), a[1..], b);
    }
  }

  lemma RunSnoc(k: nat, w: World, steps: seq<Step>, last: Step)
    ensures Run(k, w, steps + [last]) == Next(k, Run(k, w, steps), last)
  {
    RunConcat(k, w, steps, [last]);
    assert Run(k, Run(k, w, steps), [last]) == Next(k, Run(k, w, steps), last);
  }

  /** The first four steps of a run. */
  lemma RunFour(k: nat, w: World, steps: seq<Step>)
    requires |steps| >= 4
    ensures Run(k, w, steps) == Run(k, Next(k, Next(k, Next(k, Next(k, w, steps[0]), steps[1]), steps[2]), steps[3]), steps[4..])
  {
    assert steps == steps[..4] + steps[4..];
    RunConcat(k, w, steps[..4], steps[4..]);
    var w1 := Next(k, w, steps[0]);
    assert Run(k, w, steps[..4]) == Run(k, w1, steps[1..4]);
    assert Run(k, w1, steps[1..4]) == Run(k, Next(k, w1, steps[1]), steps[2..4]);
  }

  /** A row as the API creates it: never sent, not anchored, no signature. */
  function Fresh(kind: Kind, hasCallback: bool, hash: string): World {
    World(kind, hasCallback, Record(hash, false, None, 0), [], map[], [], [], 0, [])
  }

  /**
    Any idle row the worker can find, including one with a signature that another
    program recorded for its hash without the anchored flag: the case the recovery branch is for.
  */
  ghost predicate Start(w: World) {
    && w.runs == map[] && w.sent == [] && w.marks == [] && w.lost == 0 && w.callbacks == []
    && !w.rec.anchored
    && (w.rec.sig.Some? ==> w.rec.sig.value < |w.chain| && w.chain[w.rec.sig.value].memo == w.rec.hash)
  }
}
