/**
  The periodic sweep: a batch of the oldest unanchored rows, minus the rows that
  used up their attempts, enqueued under a job id that the pool deduplicates.
*/
module AnchorSweep {
  import opened Wrappers

  datatype Row = Row(id: string, anchored: bool, attempts: nat)

  /** The unanchored rows, oldest first; a table is kept in creation order. */
  function Pending(table: seq<Row>): (pending: seq<Row>)
    ensures forall row :: row in pending <==> row in table && !row.anchored
  {
    if table == [] then []
    else (if table[0].anchored then [] else [table[0]]) + Pending(table[1..])
  }

  /** get_pending_anchor(limit). */
  function Batch(table: seq<Row>, limit: nat): seq<Row> {
    var pending := Pending(table);
    if |pending| <= limit then pending else pending[..limit]
  }

  predicate Eligible(row: Row, giveUp: nat) {
    !row.anchored && row.attempts < giveUp
  }

  /** The ids the sweep enqueues when no enqueue raises for an id outside `failing`. */
  ghost function Enqueued(rows: seq<Row>, giveUp: nat, failing: set<string>): set<string> {
    set row | row in rows && row.attempts < giveUp && row.id !in failing :: row.id
  }

  lemma EnqueuedSnoc(rows: seq<Row>, row: Row, giveUp: nat, failing: set<string>)
    ensures Enqueued(rows + [row], giveUp, failing)
         == Enqueued(rows, giveUp, failing) + if row.attempts < giveUp && row.id !in failing then {row.id} else {}
  {
    assert forall r :: r in rows + [row] <==> r in rows || r == row;
  }

  /** How many rows the sweep enqueues, one by one. */
  function Tried(rows: seq<Row>, giveUp: nat, failing: set<string>): nat {
    if rows == [] then 0
    else
      Tried(rows[..|rows| - 1], giveUp, failing)
      + if rows[|rows| - 1].attempts < giveUp && rows[|rows| - 1].id !in failing then 1 else 0
  }

  lemma EnqueuedNext(rows: seq<Row>, i: nat, giveUp: nat, failing: set<string>)
    requires i < |rows|
    ensures Enqueued(rows[..i + 1], giveUp, failing)
         == Enqueued(rows[..i], giveUp, failing) + if rows[i].attempts < giveUp && rows[i].id !in failing then {rows[i].id} else {}
    ensures Tried(rows[..i + 1], giveUp, failing)
         == Tried(rows[..i], giveUp, failing) + if rows[i].attempts < giveUp && rows[i].id !in failing then 1 else 0
  {
    assert rows[..i + 1][..i] == rows[..i];
    assert rows[..i + 1] == rows[..i] + [rows[i]];
    EnqueuedSnoc(rows[..i], rows[i], giveUp, failing);
  }

  lemma {:induction false} TriedBounds(rows: seq<Row>, giveUp: nat, failing: set<string>)
    ensures |Enqueued(rows, giveUp, failing)| <= Tried(rows, giveUp, failing) <= |rows|
  {
    if rows == [] {
      assert Enqueued([], giveUp, failing) == {};
    } else {
      var n := |rows| - 1;
      TriedBounds(rows[..n], giveUp, failing);
      EnqueuedNext(rows, n, giveUp, failing);
      assert rows[..n + 1] == rows;
    }
  }

  /** The job ids the pool knows: waiting, running, or with a result still kept. */
  class Pool {
    var taken: set<string>

    constructor ()
      ensures taken == {}
    {
      taken := {};
    }

    /** enqueue_job with a job id: a known id is ignored. */
    method EnqueueJob(id: string) returns (accepted: bool)
      modifies this
      ensures taken == old(taken) + {id}
      ensures accepted <==> id !in old(taken)
    {
      accepted := id !in taken;
      taken := taken + {id};
    }

    /**
      One sweep. `enqueued` is the count the worker logs: it includes the ids the
      pool already knew, because a duplicate does not raise.
    */
    method SweepPendingAnchors(table: seq<Row>, limit: nat, giveUp: nat, failing: set<string>) returns (enqueued: nat)
      modifies this
      ensures taken == old(taken) + Enqueued(Batch(table, limit), giveUp, failing)
      ensures |taken - old(taken)| <= enqueued <= limit && enqueued == Tried(Batch(table, limit), giveUp, failing)
    {
      var pending := Batch(table, limit);
      enqueued := 0;
      for i := 0 to |pending|
        invariant taken == old(taken) + Enqueued(pending[..i], giveUp, failing)
        invariant enqueued == Tried(pending[..i], giveUp, failing)
      {
        var event := pending[i];
        EnqueuedNext(pending, i, giveUp, failing);
        if event.attempts >= giveUp {
          continue;
        }
        if event.id !in failing {
          var _ := EnqueueJob(event.id);
          enqueued := enqueued + 1;
        }
      }
      assert pending[..|pending|] == pending;
      TriedBounds(pending, giveUp, failing);
      SubsetSize(taken - old(taken), Enqueued(pending, giveUp, failing));
    }
  }

  /** Only events that are unanchored and below the threshold are enqueued. */
  lemma OnlyEligible(table: seq<Row>, limit: nat, giveUp: nat, failing: set<string>, id: string)
    requires id in Enqueued(Batch(table, limit), giveUp, failing)
    ensures exists row :: row in table && Eligible(row, giveUp) && row.id == id
  {
    var row :| row in Batch(table, limit) && row.attempts < giveUp && row.id == id;
    assert row in Pending(table);
  }

  // ----- Progress and starvation -----

  /** The unanchored, given-up rows older than every eligible row. */
  function Blockers(table: seq<Row>, giveUp: nat): nat {
    if table == [] || Eligible(table[0], giveUp) then 0
    else (if table[0].anchored then 0 else 1) + Blockers(table[1..], giveUp)
  }

  /**
    The batch limit counts given-up rows too. So a sweep enqueues an eligible
    event exactly when fewer than `limit` given-up events are older than all of them.
  */
  lemma {:induction false} SweepProgress(table: seq<Row>, limit: nat, giveUp: nat)
    requires HasEligible(table, giveUp)
    ensures HasEligible(Batch(table, limit), giveUp) <==> Blockers(table, giveUp) < limit
  {
    var head, rest := table[0], table[1..];
    BatchCons(table, limit);
    if Eligible(head, giveUp) {
      assert limit > 0 ==> head in Batch(table, limit);
    } else {
      assert table == [head] + rest;
      HasEligibleCons(head, rest, giveUp);
      if head.anchored {
        SweepProgress(rest, limit, giveUp);
      } else if limit > 0 {
        SweepProgress(rest, limit - 1, giveUp);
        HasEligibleCons(head, Batch(rest, limit - 1), giveUp);
      }
    }
  }

  lemma BatchCons(table: seq<Row>, limit: nat)
    requires table != []
    ensures Batch(table, limit) ==
      if table[0].anchored then Batch(table[1..], limit)
      else if limit == 0 then []
      else [table[0]] + Batch(table[1..], limit - 1)
  {
  }

  ghost predicate HasEligible(rows: seq<Row>, giveUp: nat) {
    exists row :: row in rows && Eligible(row, giveUp)
  }

  lemma HasEligibleCons(head: Row, rows: seq<Row>, giveUp: nat)
    requires !Eligible(head, giveUp)
    ensures HasEligible([head] + rows, giveUp) <==> HasEligible(rows, giveUp)
  {
    assert forall row :: row in [head] + rows <==> row == head || row in rows;
  }

  function GivenUp(table: seq<Row>, giveUp: nat): nat {
    if table == [] then 0
    else (if !table[0].anchored && table[0].attempts >= giveUp then 1 else 0) + GivenUp(table[1..], giveUp)
  }

  lemma {:induction false} BlockersAreGivenUp(table: seq<Row>, giveUp: nat)
    ensures Blockers(table, giveUp) <= GivenUp(table, giveUp)
  {
    if table != [] && !Eligible(table[0], giveUp) {
      BlockersAreGivenUp(table[1..], giveUp);
    }
  }

  /** With fewer given-up events than the batch holds, some eligible event is always enqueued. */
  lemma ProgressBelowLimit(table: seq<Row>, limit: nat, giveUp: nat)
    requires HasEligible(table, giveUp)
    requires GivenUp(table, giveUp) < limit
    ensures exists row :: row in table && Eligible(row, giveUp) && row.id in Enqueued(Batch(table, limit), giveUp, {})
  {
    BlockersAreGivenUp(table, giveUp);
    SweepProgress(table, limit, giveUp);
    var row :| row in Batch(table, limit) && Eligible(row, giveUp);
    assert row in Pending(table);
  }

  lemma {:induction false} PendingConcat(a: seq<Row>, b: seq<Row>)
    ensures Pending(a + b) == Pending(a) + Pending(b)
  {
    if a == [] {
      assert a + b == b;
    } else {
      assert (a + b)[1..] == a[1..] + b;
      PendingConcat(a[1..], b);
    }
  }

  /**
    Starvation: `limit` given-up events at the front shut out everything newer.
    No sweep enqueues any event, however many are created afterwards.
  */
  lemma Starvation(stuck: seq<Row>, newer: seq<Row>, limit: nat, giveUp: nat, failing: set<string>)
    requires |Pending(stuck)| >= limit
    requires forall row :: row in stuck && !row.anchored ==> row.attempts >= giveUp
    ensures Enqueued(Batch(stuck + newer, limit), giveUp, failing) == {}
  {
    PendingConcat(stuck, newer);
    var batch := Batch(stuck + newer, limit);
    assert batch == Pending(stuck)[..limit];
    assert forall row :: row in batch ==> row in Pending(stuck);
  }
}
