/** Where the two protocols meet: the memo on chain is the hash of a custody event. */
module AnchoredHistory {
  import opened Wrappers
  import Chain = CustodyChain
  import opened AnchorLedger

  /**
    Whatever faults anchoring met and whatever else was anchored meanwhile, the memo
    under an anchored event's signature pins the event's whole history: any history
    that verifies and ends in that memo is the same history.
  */
  lemma MemoPinsHistory(h: Chain.Hasher, history: seq<Chain.Event>, claimed: seq<Chain.Event>,
                        k: nat -> nat, l: Ledger, steps: seq<RowStep>, row: nat)
    requires Chain.Injective(h) && Chain.Verified(h, history) && Chain.Verified(h, claimed)
    requires Opening(l) && row in l.rows && Chain.LastHash(history) == Some(l.rows[row].rec.hash)
    ensures row in LedgerRun(k, l, steps).rows
    ensures var l' := LedgerRun(k, l, steps);
      var rec := l'.rows[row].rec;
      rec.anchored ==>
        && rec.sig.Some? && rec.sig.value < |l'.chain|
        && (Chain.LastHash(claimed) == Some(l'.chain[rec.sig.value].memo) <==> claimed == history)
  {
    EveryRowCarriesItsHash(k, l, steps, row);
    if Chain.LastHash(claimed) == Chain.LastHash(history) {
      Chain.FinalHashPinsHistory(h, claimed, history);
    }
  }

  /** Events with different verified histories are anchored under different signatures. */
  lemma HistoriesNeverShareSignature(h: Chain.Hasher, history: seq<Chain.Event>, other: seq<Chain.Event>,
                                     k: nat -> nat, l: Ledger, steps: seq<RowStep>, row: nat, row': nat)
    requires Chain.Injective(h) && Chain.Verified(h, history) && Chain.Verified(h, other) && history != other
    requires Opening(l) && row in l.rows && row' in l.rows
    requires Chain.LastHash(history) == Some(l.rows[row].rec.hash) && Chain.LastHash(other) == Some(l.rows[row'].rec.hash)
    ensures row in LedgerRun(k, l, steps).rows && row' in LedgerRun(k, l, steps).rows
    ensures var l' := LedgerRun(k, l, steps);
      l'.rows[row].rec.anchored && l'.rows[row'].rec.anchored ==> l'.rows[row].rec.sig != l'.rows[row'].rec.sig
  {
    if Chain.LastHash(history) == Chain.LastHash(other) {
      Chain.FinalHashPinsHistory(h, history, other);
    }
    RowsNeverShareSignature(k, l, steps, row, row');
  }
}
