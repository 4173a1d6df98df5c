/**
  Any number of rows, their jobs interleaved, over the one log of memos that the
  platform account writes. Seen from a single row this is the protocol with the
  memos of all other rows as foreign ones, so every theorem of `AnchorSafety` holds
  of each row here; and what one row stores is never another row's.
*/
module AnchorLedger {
  import opened AnchorProtocol
  import Safety = AnchorSafety

  /** The log is shared; a row's own copy of it is brought up to date by `View`. */
  datatype Ledger = Ledger(chain: seq<Submission>, rows: map<nat, World>)

  datatype RowStep = At(row: nat, step: Step)

  function View(l: Ledger, row: nat): World
    requires row in l.rows
  {
    l.rows[row].(chain := l.chain)
  }

  /** `k` bounds the jobs in flight for each row. */
  function LedgerNext(k: nat -> nat, l: Ledger, s: RowStep): Ledger {
    if s.row !in l.rows then l
    else
      var w := Next(k(s.row), View(l, s.row), s.step);
      Ledger(w.chain, l.rows[s.row := w])
  }

  function LedgerRun(k: nat -> nat, l: Ledger, steps: seq<RowStep>): Ledger
    decreases |steps|
  {
    if steps == [] then l else LedgerRun(k, LedgerNext(k, l, steps[0]), steps[1..])
  }

  /** Rows the worker may find, with nothing in flight. */
  ghost predicate Opening(l: Ledger) {
    forall row :: row in l.rows ==> Start(View(l, row))
  }

  // ----- A ledger is a protocol run for each of its rows -----

  /** What a row notices of a step: its own steps, and what others do to the log. */
  function Noticed(k: nat -> nat, l: Ledger, row: nat, s: RowStep): seq<Step> {
    if s.row !in l.rows then []
    else if s.row == row || s.step.Settle? then [s.step]
    else
      var chain := LedgerNext(k, l, s).chain;
      if |chain| <= |l.chain| then [] else [Foreign(chain[|l.chain|].memo)]
  }

  function Projection(k: nat -> nat, l: Ledger, row: nat, steps: seq<RowStep>): seq<Step>
    decreases |steps|
  {
    if steps == [] then []
    else Noticed(k, l, row, steps[0]) + Projection(k, LedgerNext(k, l, steps[0]), row, steps[1..])
  }

  lemma NoticedNext(k: nat -> nat, l: Ledger, row: nat, s: RowStep)
    requires row in l.rows
    ensures row in LedgerNext(k, l, s).rows
    ensures View(LedgerNext(k, l, s), row) == Run(k(row), View(l, row), Noticed(k, l, row, s))
  {
    if s.row in l.rows {
      Safety.LogNext(k(s.row), View(l, s.row), s.step);
      var noticed := Noticed(k, l, row, s);
      if noticed != [] {
        assert Run(k(row), View(l, row), noticed) == Next(k(row), View(l, row), noticed[0]);
      }
    }
  }

  lemma {:induction false} LedgerRefinesProtocol(k: nat -> nat, l: Ledger, row: nat, steps: seq<RowStep>)
    requires row in l.rows
    ensures row in LedgerRun(k, l, steps).rows
    ensures View(LedgerRun(k, l, steps), row) == Run(k(row), View(l, row), Projection(k, l, row, steps))
    decreases |steps|
  {
    if steps != [] {
      NoticedNext(k, l, row, steps[0]);
      var l' := LedgerNext(k, l, steps[0]);
      LedgerRefinesProtocol(k, l', row, steps[1..]);
      RunConcat(k(row), View(l, row), Noticed(k, l, row, steps[0]), Projection(k, l', row, steps[1..]));
    }
  }

  // ----- No signature belongs to two rows -----

  /** All signatures ever accepted for the rows are different from each other. */
  ghost predicate Apart(l: Ledger) {
    && (forall row, i :: row in l.rows && 0 <= i < |l.rows[row].sent| ==> l.rows[row].sent[i] < |l.chain|)
    && (forall row, i, row', j ::
          row in l.rows && row' in l.rows && 0 <= i < |l.rows[row].sent| && 0 <= j < |l.rows[row'].sent| && (row, i) != (row', j) ==>
            l.rows[row].sent[i] != l.rows[row'].sent[j])
  }

  lemma SentNext(k: nat, w: World, step: Step)
    ensures var w' := Next(k, w, step);
      && |w.chain| <= |w'.chain|
      && (w'.sent == w.sent || (w'.sent == w.sent + [|w.chain|] && |w'.chain| == |w.chain| + 1))
  {
    match step
    case Begin(id) => assert BeginRun(k, w, id).sent == w.sent;
    case Lookup(id, found) => assert LookUp(w, id, found).sent == w.sent;
    case Recover(id, result) => assert RecoverRow(w, id, result).sent == w.sent;
    case Send(id, sent) => assert SendMemo(w, id, sent).sent in {w.sent, Submit(w).sent};
    case Commit(id, result) => assert CommitMark(w, id, result).sent == w.sent;
    case Handle(id, applied) => assert HandleError(w, id, applied).sent == w.sent;
    case Notify(id) => assert FireCallback(w, id).sent == w.sent;
    case Crash(id) => assert CrashRun(w, id).sent == w.sent;
    case _ =>
  }

  lemma ApartNext(k: nat -> nat, l: Ledger, s: RowStep)
    requires Apart(l)
    ensures Apart(LedgerNext(k, l, s))
  {
    if s.row in l.rows {
      SentNext(k(s.row), View(l, s.row), s.step);
    }
  }

  lemma {:induction false} ApartRun(k: nat -> nat, l: Ledger, steps: seq<RowStep>)
    requires Apart(l)
    ensures Apart(LedgerRun(k, l, steps))
    decreases |steps|
  {
    if steps != [] {
      ApartNext(k, l, steps[0]);
      ApartRun(k, LedgerNext(k, l, steps[0]), steps[1..]);
    }
  }

  // ----- The theorems -----

  /** In every interleaving, the memo under an anchored row's signature is that row's hash, out of all memos in the log. */
  lemma EveryRowCarriesItsHash(k: nat -> nat, l: Ledger, steps: seq<RowStep>, row: nat)
    requires Opening(l) && row in l.rows
    ensures var l' := LedgerRun(k, l, steps);
      && row in l'.rows
      && l'.rows[row].rec.hash == l.rows[row].rec.hash
      && (l'.rows[row].rec.anchored ==>
            && l'.rows[row].rec.sig.Some?
            && l'.rows[row].rec.sig.value < |l'.chain|
            && l'.chain[l'.rows[row].rec.sig.value].memo == l.rows[row].rec.hash)
  {
    LedgerRefinesProtocol(k, l, row, steps);
    Safety.AnchoredCarriesHash(k(row), View(l, row), Projection(k, l, row, steps));
  }

  predicate Distinguished(a: Record, b: Record) {
    a.hash != b.hash || (a.sig.None? && b.sig.None?)
  }

  /**
    Two anchored rows with different hashes never store the same signature, and two
    rows that came without one never do, not even for equal hashes.
  */
  lemma RowsNeverShareSignature(k: nat -> nat, l: Ledger, steps: seq<RowStep>, row: nat, other: nat)
    requires Opening(l) && row in l.rows && other in l.rows && row != other
    ensures var l' := LedgerRun(k, l, steps);
      && row in l'.rows && other in l'.rows
      && (Distinguished(l.rows[row].rec, l.rows[other].rec) && l'.rows[row].rec.anchored && l'.rows[other].rec.anchored ==>
            l'.rows[row].rec.sig != l'.rows[other].rec.sig)
  {
    EveryRowCarriesItsHash(k, l, steps, row);
    EveryRowCarriesItsHash(k, l, steps, other);
    ApartRun(k, l, steps);
    if l.rows[row].rec.sig.None? && l.rows[other].rec.sig.None? {
      OwnSignature(k, l, steps, row);
      OwnSignature(k, l, steps, other);
    }
  }

  /** A row that came without a signature stores one of its own memos. */
  lemma OwnSignature(k: nat -> nat, l: Ledger, steps: seq<RowStep>, row: nat)
    requires Opening(l) && row in l.rows && l.rows[row].rec.sig.None?
    ensures row in LedgerRun(k, l, steps).rows
    ensures var w := LedgerRun(k, l, steps).rows[row]; w.rec.sig.Some? ==> w.rec.sig.value in w.sent
  {
    LedgerRefinesProtocol(k, l, row, steps);
    Safety.RecoveryUnreachable(k(row), View(l, row), Projection(k, l, row, steps));
  }

  /** The counted bound holds for each row, in terms of memos that are all different entries of the log with that row's hash. */
  lemma EveryRowMemoBound(k: nat -> nat, l: Ledger, steps: seq<RowStep>, row: nat)
    requires Opening(l) && row in l.rows
    ensures row in LedgerRun(k, l, steps).rows
    ensures var l' := LedgerRun(k, l, steps);
      var w := l'.rows[row];
      && |w.sent| <= k(row) + w.lost
      && (forall i :: 0 <= i < |w.sent| ==> w.sent[i] < |l'.chain| && l'.chain[w.sent[i]].memo == w.rec.hash)
      && (forall i, j :: 0 <= i < j < |w.sent| ==> w.sent[i] != w.sent[j])
  {
    LedgerRefinesProtocol(k, l, row, steps);
    ApartRun(k, l, steps);
    var w, seen := View(l, row), Projection(k, l, row, steps);
    Safety.MemoBound(k(row), w, seen);
    Safety.StartInv(k(row), w);
    Safety.InvRun(k(row), w, seen);
    var w' := Run(k(row), w, seen);
    forall i | 0 <= i < |w'.sent|
      ensures Safety.Carries(w', w'.sent[i])
    {
      assert w'.sent[i] in w'.sent;
    }
  }
}
