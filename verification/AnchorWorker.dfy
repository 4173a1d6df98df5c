/**
  The two jobs as the worker runs them, statement by statement, over one row and
  the chain log. What the outside world answers at each await is an argument.
  Each job is proved to be a path of the protocol, so everything `AnchorSafety`
  and `AnchorQueue` prove about paths holds of the code.
*/
module AnchorWorker {
  import opened Wrappers
  import opened AnchorProtocol

  /** The answers of the RPC node and the database during one run. */
  datatype Answers = Answers(
    found: bool,
    recovered: CommitResult,
    sent: SendResult,
    committed: CommitResult,
    handled: bool)

  datatype Status = NotFound | AlreadyAnchored(recorded: Option<nat>) | Anchored(sig: nat) | Raised

  const ME: nat := 0

  /** The commit of the only run in flight. */
  lemma CommitAlone(w: World, sig: nat, result: CommitResult)
    requires w.runs == map[ME := Holding(sig)]
    ensures Next(1, w, Commit(ME, result)) ==
      if result.NotApplied? then w.(lost := w.lost + 1, runs := map[ME := Handling])
      else Marked(w, sig).(runs :=
        if result.AppliedThenRaised? then map[ME := Handling]
        else if w.kind.Generic? && w.hasCallback then map[ME := Notifying(sig)]
        else map[])
  {
    assert w.runs[ME := Handling] == map[ME := Handling];
    assert w.runs[ME := Notifying(sig)] == map[ME := Notifying(sig)];
    assert w.runs - {ME} == map[];
  }

  /** The send of the only run in flight. */
  lemma SendAlone(w: World, sent: SendResult)
    requires w.runs == map[ME := Ready]
    ensures Next(1, w, Send(ME, sent)) ==
      if sent.NotSent? then w.(runs := map[ME := Handling])
      else if sent.SentThenRaised? then Submit(w).(lost := w.lost + 1, runs := map[ME := Handling])
      else Submit(w).(runs := map[ME := Holding(|w.chain|)])
  {
    assert w.runs[ME := Handling] == map[ME := Handling];
    assert w.runs[ME := Holding(|w.chain|)] == map[ME := Holding(|w.chain|)];
  }

  /** The recorded signature is found on chain, so nothing is sent. */
  predicate Recoverable(r: Record, chain: seq<Submission>, a: Answers) {
    r.sig.Some? && a.found && r.sig.value < |chain| && chain[r.sig.value].fate == Landed
  }

  /** The row after a send, column by column: the mark, if its commit took effect, and the increment of the except block. */
  predicate RowAfterSend(kind: Kind, r: Record, next: nat, a: Answers, r': Record) {
    var marked := a.sent == SentOk && a.committed != NotApplied;
    var raised := a.sent != SentOk || a.committed != Applied;
    && r'.hash == r.hash
    && r'.anchored == (r.anchored || marked)
    && r'.sig == (if marked then Some(next) else r.sig)
    && r'.attempts == r.attempts + (if marked && kind == Event then 1 else 0) + (if raised && a.handled then 1 else 0)
  }

  /** The row after the recovery branch. */
  predicate RowAfterRecovery(kind: Kind, r: Record, a: Answers, r': Record) {
    var marked := a.recovered != NotApplied;
    && r'.hash == r.hash && r'.sig == r.sig
    && r'.anchored == (r.anchored || marked)
    && r'.attempts == r.attempts + if marked && kind == Event then 1 else 0
  }

  class Job {
    const hasCallback: bool
    var row: Option<Record>
    var chain: seq<Submission>
    var callbacks: seq<nat>
    ghost var sent: seq<nat>
    ghost var marks: seq<nat>
    ghost var lost: nat

    /** The protocol state, with this run at `phase`, or no run at all. */
    ghost function View(kind: Kind, phase: Option<Phase>): World
      requires row.Some?
      reads this
    {
      World(kind, hasCallback, row.value, chain,
            if phase.Some? then map[ME := phase.value] else map[], sent, marks, lost, callbacks)
    }

    constructor (row: Option<Record>, chain: seq<Submission>, hasCallback: bool)
      ensures this.row == row && this.chain == chain && this.callbacks == []
      ensures this.hasCallback == hasCallback && sent == [] && marks == [] && lost == 0
    {
      this.row := row;
      this.chain := chain;
      this.callbacks := [];
      this.hasCallback := hasCallback;
      this.sent := [];
      this.marks := [];
      this.lost := 0;
    }

    /** The except block, up to the raise. */
    method Except(kind: Kind, handled: bool, ghost w0: World, ghost before: seq<Step>) returns (ghost trace: seq<Step>)
      requires row.Some? && Run(1, w0, before) == View(kind, Some(Handling))
      modifies this`row
      ensures row == Some(if handled then Bump(old(row.value)) else old(row.value))
      ensures Run(1, w0, trace) == View(kind, None)
    {
      trace := before + [Handle(ME, handled)];
      RunSnoc(1, w0, before, Handle(ME, handled));
      if handled {
        row := Some(Bump(row.value));
      }
      assert map[ME := Handling] - {ME} == map[];
    }

    /** The lookup and the recovery branch; `done` says that the job ends here. */
    method TryRecover(kind: Kind, a: Answers, ghost w0: World) returns (done: bool, status: Status, ghost trace: seq<Step>)
      requires row.Some? && !row.value.anchored && row.value.sig.Some?
      requires w0 == View(kind, None)
      modifies this`row
      ensures row.Some? && Run(1, w0, trace) == View(kind, if done then None else Some(Ready))
      ensures done <==> a.found && OnChain(w0, w0.rec.sig.value)
      ensures done && a.recovered.Applied? ==> status == Anchored(w0.rec.sig.value)
      ensures done && !a.recovered.Applied? ==> status == Raised
      ensures done <==> Recoverable(w0.rec, chain, a)
      ensures if done then RowAfterRecovery(kind, w0.rec, a, row.value) else row.value == w0.rec
    {
      var sig := row.value.sig.value;
      trace := [Begin(ME)];
      assert Run(1, w0, trace) == View(kind, Some(Looking(sig)));
      RunSnoc(1, w0, trace, Lookup(ME, a.found));
      var alreadyOnChain := a.found && sig < |chain| && chain[sig].fate.Landed?;
      trace := trace + [Lookup(ME, a.found)];
      if !alreadyOnChain {
        return false, Raised, trace;
      }
      assert Run(1, w0, trace) == View(kind, Some(Recovering(sig)));
      RunSnoc(1, w0, trace, Recover(ME, a.recovered));
      trace := trace + [Recover(ME, a.recovered)];
      if !a.recovered.NotApplied? {
        row := Some(Mark(kind, row.value, sig));
      }
      assert map[ME := Recovering(sig)] - {ME} == map[];
      return true, if a.recovered.Applied? then Anchored(sig) else Raised, trace;
    }

    /** send_memo, mark_anchored and commit inside the try block, then the callback or the except block. */
    method SendAndMark(kind: Kind, a: Answers, ghost w0: World, ghost before: seq<Step>) returns (status: Status, ghost trace: seq<Step>)
      requires row.Some? && Run(1, w0, before) == View(kind, Some(Ready))
      modifies this
      ensures row.Some? && Run(1, w0, trace) == View(kind, None)
      ensures status == if a.sent.SentOk? && a.committed.Applied? then Anchored(old(|chain|)) else Raised
      ensures chain == if a.sent.NotSent? then old(chain) else old(chain) + [Submission(old(row.value.hash), Pending)]
      ensures RowAfterSend(kind, old(row.value), old(|chain|), a, row.value)
      ensures callbacks == if status.Anchored? && kind.Generic? && hasCallback then old(callbacks) + [old(|chain|)] else old(callbacks)
    {
      var memo := Submission(row.value.hash, Pending);
      RunSnoc(1, w0, before, Send(ME, a.sent));
      SendAlone(View(kind, Some(Ready)), a.sent);
      trace := before + [Send(ME, a.sent)];
      if a.sent.NotSent? {
        trace := Except(kind, a.handled, w0, trace);
        return Raised, trace;
      }
      var txSig := |chain|;
      chain := chain + [memo];
      sent := sent + [txSig];
      if a.sent.SentThenRaised? {
        lost := lost + 1;
        trace := Except(kind, a.handled, w0, trace);
        return Raised, trace;
      }
      status, trace := MarkAndCommit(kind, a, txSig, w0, trace);
    }

    method MarkAndCommit(kind: Kind, a: Answers, txSig: nat, ghost w0: World, ghost before: seq<Step>) returns (status: Status, ghost trace: seq<Step>)
      requires row.Some? && a.sent == SentOk && Run(1, w0, before) == View(kind, Some(Holding(txSig)))
      modifies this
      ensures row.Some? && Run(1, w0, trace) == View(kind, None)
      ensures status == if a.committed.Applied? then Anchored(txSig) else Raised
      ensures chain == old(chain)
      ensures RowAfterSend(kind, old(row.value), txSig, a, row.value)
      ensures callbacks == if status.Anchored? && kind.Generic? && hasCallback then old(callbacks) + [txSig] else old(callbacks)
    {
      RunSnoc(1, w0, before, Commit(ME, a.committed));
      CommitAlone(View(kind, Some(Holding(txSig))), txSig, a.committed);
      trace := before + [Commit(ME, a.committed)];
      if a.committed.NotApplied? {
        lost := lost + 1;
      } else {
        row := Some(Mark(kind, row.value, txSig));
        marks := marks + [txSig];
      }
      if !a.committed.Applied? {
        trace := Except(kind, a.handled, w0, trace);
        return Raised, trace;
      }
      if kind.Generic? && hasCallback {
        RunSnoc(1, w0, trace, Notify(ME));
        trace := trace + [Notify(ME)];
        callbacks := callbacks + [txSig];
        assert map[ME := Notifying(txSig)] - {ME} == map[];
      }
      return Anchored(txSig), trace;
    }

    /**
      `anchor_event` and `anchor_generic`. A row that is not there or is anchored ends
      the job; a recorded signature that is on chain is marked and nothing is sent; every
      other row gets its memo, its mark and, if it is a generic one, its callback.
    */
    method AnchorRow(kind: Kind, a: Answers) returns (status: Status, ghost trace: seq<Step>)
      modifies this
      ensures row.None? <==> old(row).None?
      ensures old(row).None? ==> status == NotFound && chain == old(chain) && callbacks == old(callbacks)
      ensures old(row).Some? ==> View(kind, None) == Run(1, old(View(kind, None)), trace)
      ensures old(row).Some? && old(row.value.anchored) ==>
        status == AlreadyAnchored(old(row.value.sig)) && row == old(row) && chain == old(chain) && callbacks == old(callbacks)
      ensures old(row).Some? && !old(row.value.anchored) && Recoverable(old(row.value), old(chain), a) ==>
        && status == (if a.recovered == Applied then Anchored(old(row.value.sig.value)) else Raised)
        && RowAfterRecovery(kind, old(row.value), a, row.value)
        && chain == old(chain) && callbacks == old(callbacks)
      ensures old(row).Some? && !old(row.value.anchored) && !Recoverable(old(row.value), old(chain), a) ==>
        && status == (if a.sent == SentOk && a.committed == Applied then Anchored(old(|chain|)) else Raised)
        && RowAfterSend(kind, old(row.value), old(|chain|), a, row.value)
        && chain == (if a.sent == NotSent then old(chain) else old(chain) + [Submission(old(row.value.hash), Pending)])
        && callbacks == (if status.Anchored? && kind == Generic && hasCallback then old(callbacks) + [old(|chain|)] else old(callbacks))
    {
      trace := [];
      if row.None? {
        return NotFound, trace;
      }
      if row.value.anchored {
        return AlreadyAnchored(row.value.sig), trace;
      }
      ghost var w0 := View(kind, None);
      if row.value.sig.Some? {
        var done;
        done, status, trace := TryRecover(kind, a, w0);
        if done {
          return;
        }
      } else {
        trace := [Begin(ME)];
        assert Run(1, w0, trace) == View(kind, Some(Ready));
      }
      status, trace := SendAndMark(kind, a, w0, trace);
    }
  }
}
