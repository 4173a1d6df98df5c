/** What every run of the anchoring protocol keeps, whatever faults it meets. */
module AnchorSafety {
  import opened Wrappers
  import opened AnchorProtocol

  predicate MayCommit(phase: Phase) {
    phase.Looking? || phase.Recovering? || phase.Ready? || phase.Holding?
  }

  /** Runs that hold a signature nobody has committed. */
  ghost function Holders(runs: map<nat, Phase>): set<nat> {
    set id | id in runs && runs[id].Holding?
  }

  /** Runs that passed the anchored check and may still mark the row. */
  ghost function Committers(runs: map<nat, Phase>): set<nat> {
    set id | id in runs && MayCommit(runs[id])
  }

  /** Runs that committed and still owe the callback. */
  ghost function Notifiers(runs: map<nat, Phase>): set<nat> {
    set id | id in runs && runs[id].Notifying?
  }

  /** The memo under a signature is the row's hash; the log holds everybody's memos. */
  predicate Carries(w: World, sig: nat) {
    sig < |w.chain| && w.chain[sig].memo == w.rec.hash
  }

  ghost predicate PhaseOk(w: World, phase: Phase) {
    match phase
    case Looking(sig) => Carries(w, sig)
    case Recovering(sig) => Carries(w, sig)
    case Holding(sig) => sig in w.sent
    case Notifying(sig) => sig in w.marks && w.rec.anchored
    case _ => true
  }

  /** Row, log and phases agree. */
  ghost predicate RowInv(w: World) {
    && (forall sig :: sig in w.sent ==> Carries(w, sig))
    && (forall sig :: sig in w.marks ==> sig in w.sent)
    && (forall sig :: sig in w.callbacks ==> sig in w.marks)
    && (w.rec.sig.Some? ==> Carries(w, w.rec.sig.value))
    && (w.rec.anchored ==> w.rec.sig.Some?)
    && (w.marks != [] ==> w.rec.anchored)
    && (forall id :: id in w.runs ==> PhaseOk(w, w.runs[id]))
  }

  /** Every memo sent is committed, lost or held, and marks are scarce once anchored. */
  ghost predicate CountInv(k: nat, w: World) {
    && |w.runs| <= k
    && |w.sent| == |w.marks| + w.lost + |Holders(w.runs)|
    && (w.rec.anchored ==> |w.marks| + |Committers(w.runs)| <= k)
    && (!w.rec.anchored ==> w.marks == [])
    && |w.callbacks| + |Notifiers(w.runs)| <= |w.marks|
  }

  lemma PutHolders(runs: map<nat, Phase>, id: nat, phase: Phase)
    ensures Holders(runs[id := phase]) == if phase.Holding? then Holders(runs) + {id} else Holders(runs) - {id}
  {
  }

  lemma PutCommitters(runs: map<nat, Phase>, id: nat, phase: Phase)
    ensures Committers(runs[id := phase]) == if MayCommit(phase) then Committers(runs) + {id} else Committers(runs) - {id}
  {
  }

  lemma PutNotifiers(runs: map<nat, Phase>, id: nat, phase: Phase)
    ensures Notifiers(runs[id := phase]) == if phase.Notifying? then Notifiers(runs) + {id} else Notifiers(runs) - {id}
  {
  }

  lemma PutSize(runs: map<nat, Phase>, id: nat, phase: Phase)
    ensures |runs[id := phase]| == if id in runs then |runs| else |runs| + 1
  {
    assert runs[id := phase].Keys == runs.Keys + {id};
  }

  lemma DropRun(runs: map<nat, Phase>, id: nat)
    requires id in runs
    ensures Holders(runs - {id}) == Holders(runs) - {id}
    ensures Committers(runs - {id}) == Committers(runs) - {id}
    ensures Notifiers(runs - {id}) == Notifiers(runs) - {id}
    ensures |runs - {id}| == |runs| - 1
  {
    assert (runs - {id}).Keys == runs.Keys - {id};
  }

  lemma PutRun(runs: map<nat, Phase>, id: nat, phase: Phase)
    ensures Holders(runs[id := phase]) == if phase.Holding? then Holders(runs) + {id} else Holders(runs) - {id}
    ensures Committers(runs[id := phase]) == if MayCommit(phase) then Committers(runs) + {id} else Committers(runs) - {id}
    ensures Notifiers(runs[id := phase]) == if phase.Notifying? then Notifiers(runs) + {id} else Notifiers(runs) - {id}
    ensures |runs[id := phase]| == if id in runs then |runs| else |runs| + 1
  {
    PutHolders(runs, id, phase);
    PutCommitters(runs, id, phase);
    PutNotifiers(runs, id, phase);
    PutSize(runs, id, phase);
  }

  lemma FewCommitters(runs: map<nat, Phase>)
    ensures |Holders(runs)| <= |Committers(runs)| <= |runs|
  {
    SubsetSize(Holders(runs), Committers(runs));
    SubsetSize(Committers(runs), runs.Keys);
  }

  lemma RowPhase(w: World, id: nat, phase: Phase)
    requires RowInv(w) && PhaseOk(w, phase)
    ensures RowInv(SetPhase(w, id, phase))
  {
  }

  lemma RowSubmit(w: World)
    requires RowInv(w)
    ensures RowInv(Submit(w)) && |w.chain| in Submit(w).sent
  {
  }

  lemma RowMarked(w: World, sig: nat)
    requires RowInv(w) && sig in w.sent
    ensures RowInv(Marked(w, sig)) && sig in Marked(w, sig).marks
  {
  }

  lemma RowSend(w: World, id: nat, sent: SendResult)
    requires RowInv(w)
    ensures RowInv(SendMemo(w, id, sent))
  {
    if id in w.runs && w.runs[id].Ready? {
      RowSubmit(w);
      var w' := if sent.NotSent? then w else if sent.SentOk? then Submit(w) else Submit(w).(lost := w.lost + 1);
      RowPhase(w', id, if sent.SentOk? then Holding(|w.chain|) else Handling);
    }
  }

  lemma RowCommit(w: World, id: nat, result: CommitResult)
    requires RowInv(w)
    ensures RowInv(CommitMark(w, id, result))
  {
    if id in w.runs && w.runs[id].Holding? {
      var sig := w.runs[id].sig;
      assert PhaseOk(w, w.runs[id]);
      RowMarked(w, sig);
      RowPhase(Marked(w, sig), id, Handling);
      RowPhase(Marked(w, sig), id, Notifying(sig));
    }
  }

  lemma RowRecover(w: World, id: nat, result: CommitResult)
    requires RowInv(w)
    ensures RowInv(RecoverRow(w, id, result))
  {
    if id in w.runs {
      assert PhaseOk(w, w.runs[id]);
    }
  }

  lemma RowLog(w: World, chain: seq<Submission>)
    requires RowInv(w) && |w.chain| <= |chain| && forall i :: 0 <= i < |w.chain| ==> chain[i].memo == w.chain[i].memo
    ensures RowInv(w.(chain := chain))
  {
  }

  lemma RowStart(k: nat, w: World, id: nat)
    requires RowInv(w)
    ensures RowInv(BeginRun(k, w, id))
  {
  }

  lemma RowLookup(w: World, id: nat, found: bool)
    requires RowInv(w)
    ensures RowInv(LookUp(w, id, found))
  {
    if id in w.runs && w.runs[id].Looking? {
      assert PhaseOk(w, w.runs[id]);
      RowPhase(w, id, Ready);
      RowPhase(w, id, Recovering(w.runs[id].sig));
    }
  }

  lemma RowHandle(w: World, id: nat, applied: bool)
    requires RowInv(w)
    ensures RowInv(HandleError(w, id, applied))
  {
  }

  lemma RowNotify(w: World, id: nat)
    requires RowInv(w)
    ensures RowInv(FireCallback(w, id))
  {
    if id in w.runs {
      assert PhaseOk(w, w.runs[id]);
    }
  }

  lemma RowCrash(w: World, id: nat)
    requires RowInv(w)
    ensures RowInv(CrashRun(w, id))
  {
  }

  lemma RowNext(k: nat, w: World, step: Step)
    requires RowInv(w)
    ensures RowInv(Next(k, w, step))
  {
    match step
    case Begin(id) => RowStart(k, w, id);
    case Lookup(id, found) => RowLookup(w, id, found);
    case Recover(id, result) => RowRecover(w, id, result);
    case Send(id, sent) => RowSend(w, id, sent);
    case Commit(id, result) => RowCommit(w, id, result);
    case Handle(id, applied) => RowHandle(w, id, applied);
    case Notify(id) => RowNotify(w, id);
    case Crash(id) => RowCrash(w, id);
    case Settle(sig, lands) => RowLog(w, SettleSubmission(w, sig, lands).chain);
    case Foreign(memo) => RowLog(w, w.chain + [Submission(memo, Pending)]);
  }

  lemma CountBegin(k: nat, w: World, id: nat)
    requires CountInv(k, w)
    ensures CountInv(k, Next(k, w, Begin(id)))
  {
    var w' := Next(k, w, Begin(id));
    if w' != w {
      PutRun(w.runs, id, w'.runs[id]);
    }
  }

  lemma CountLookup(k: nat, w: World, id: nat, found: bool)
    requires CountInv(k, w)
    ensures CountInv(k, Next(k, w, Lookup(id, found)))
  {
    if id in w.runs && w.runs[id].Looking? {
      CountStays(k, w, id, LookUp(w, id, found).runs[id]);
    }
  }

  /** A run that may still commit goes on to another such phase, without a signature in hand. */
  lemma CountStays(k: nat, w: World, id: nat, phase: Phase)
    requires CountInv(k, w) && id in w.runs
    requires MayCommit(w.runs[id]) && !w.runs[id].Holding? && MayCommit(phase) && !phase.Holding?
    ensures CountInv(k, SetPhase(w, id, phase))
  {
    PutRun(w.runs, id, phase);
    var runs := SetPhase(w, id, phase).runs;
    assert Holders(runs) == Holders(w.runs) && Committers(runs) == Committers(w.runs) && Notifiers(runs) == Notifiers(w.runs);
  }

  lemma CountSend(k: nat, w: World, id: nat, sent: SendResult)
    requires CountInv(k, w)
    ensures CountInv(k, Next(k, w, Send(id, sent)))
  {
    var w' := Next(k, w, Send(id, sent));
    if id in w.runs && w.runs[id].Ready? {
      PutRun(w.runs, id, w'.runs[id]);
      assert id !in Holders(w.runs) && id in Committers(w.runs);
    }
  }

  lemma CountCommit(k: nat, w: World, id: nat, result: CommitResult)
    requires CountInv(k, w)
    ensures CountInv(k, Next(k, w, Commit(id, result)))
  {
    if id in w.runs && w.runs[id].Holding? {
      var w' := CommitMark(w, id, result);
      if id in w'.runs {
        CountHandOver(k, w, w', id, w'.runs[id]);
      } else {
        CountMarked(k, w, w', id);
      }
    }
  }

  /** A holder commits or loses its signature and goes on to the except block or the callback. */
  lemma CountHandOver(k: nat, w: World, w': World, id: nat, phase: Phase)
    requires CountInv(k, w) && id in w.runs && w.runs[id].Holding?
    requires w'.runs == w.runs[id := phase] && (phase.Handling? || phase.Notifying?)
    requires w'.sent == w.sent && w'.callbacks == w.callbacks
    requires (|w'.marks| == |w.marks| + 1 && w'.lost == w.lost && w'.rec.anchored)
          || (|w'.marks| == |w.marks| && w'.lost == w.lost + 1 && w'.rec.anchored == w.rec.anchored && phase.Handling?)
    ensures CountInv(k, w')
  {
    FewCommitters(w.runs);
    PutRun(w.runs, id, phase);
    assert id in Holders(w.runs) && id in Committers(w.runs) && id !in Notifiers(w.runs);
  }

  lemma CountMarked(k: nat, w: World, w': World, id: nat)
    requires CountInv(k, w) && id in w.runs && w.runs[id].Holding?
    requires w'.runs == w.runs - {id} && w'.sent == w.sent && w'.callbacks == w.callbacks
    requires |w'.marks| == |w.marks| + 1 && w'.lost == w.lost && w'.rec.anchored
    ensures CountInv(k, w')
  {
    FewCommitters(w.runs);
    DropRun(w.runs, id);
    assert id in Holders(w.runs) && id in Committers(w.runs) && id !in Notifiers(w.runs);
  }

  lemma CountEnd(k: nat, w: World, w': World, id: nat)
    requires CountInv(k, w) && id in w.runs && w'.runs == w.runs - {id}
    requires w'.sent == w.sent && w'.marks == w.marks
    requires w'.lost == w.lost + if w.runs[id].Holding? then 1 else 0
    requires |w'.callbacks| == |w.callbacks| + if w.runs[id].Notifying? && w'.callbacks != w.callbacks then 1 else 0
    requires w'.rec.anchored == w.rec.anchored || (w'.rec.anchored && MayCommit(w.runs[id]))
    ensures CountInv(k, w')
  {
    FewCommitters(w.runs);
    DropRun(w.runs, id);
    assert id in Holders(w.runs) <==> w.runs[id].Holding?;
    assert id in Notifiers(w.runs) <==> w.runs[id].Notifying?;
    assert id in Committers(w.runs) <==> MayCommit(w.runs[id]);
  }

  lemma CountRecover(k: nat, w: World, id: nat, result: CommitResult)
    requires CountInv(k, w)
    ensures CountInv(k, Next(k, w, Recover(id, result)))
  {
    if id in w.runs && w.runs[id].Recovering? {
      CountEnd(k, w, RecoverRow(w, id, result), id);
    }
  }

  lemma CountHandle(k: nat, w: World, id: nat, applied: bool)
    requires CountInv(k, w)
    ensures CountInv(k, Next(k, w, Handle(id, applied)))
  {
    if id in w.runs && w.runs[id].Handling? {
      CountEnd(k, w, HandleError(w, id, applied), id);
    }
  }

  lemma CountNotify(k: nat, w: World, id: nat)
    requires CountInv(k, w)
    ensures CountInv(k, Next(k, w, Notify(id)))
  {
    if id in w.runs && w.runs[id].Notifying? {
      CountEnd(k, w, FireCallback(w, id), id);
    }
  }

  lemma CountCrash(k: nat, w: World, id: nat)
    requires CountInv(k, w)
    ensures CountInv(k, Next(k, w, Crash(id)))
  {
    if id in w.runs {
      CountEnd(k, w, CrashRun(w, id), id);
    }
  }

  lemma CountNext(k: nat, w: World, step: Step)
    requires CountInv(k, w)
    ensures CountInv(k, Next(k, w, step))
  {
    match step
    case Begin(id) => CountBegin(k, w, id);
    case Lookup(id, found) => CountLookup(k, w, id, found);
    case Recover(id, result) => CountRecover(k, w, id, result);
    case Send(id, sent) => CountSend(k, w, id, sent);
    case Commit(id, result) => CountCommit(k, w, id, result);
    case Handle(id, applied) => CountHandle(k, w, id, applied);
    case Notify(id) => CountNotify(k, w, id);
    case Crash(id) => CountCrash(k, w, id);
    case Settle(_, _) =>
    case Foreign(_) =>
  }

  lemma {:induction false} InvRun(k: nat, w: World, steps: seq<Step>)
    requires RowInv(w) && CountInv(k, w)
    ensures RowInv(Run(k, w, steps)) && CountInv(k, Run(k, w, steps))
    decreases |steps|
  {
    if steps != [] {
      RowNext(k, w, steps[0]);
      CountNext(k, w, steps[0]);
      InvRun(k, Next(k, w, steps[0]), steps[1..]);
    }
  }

  lemma StartInv(k: nat, w: World)
    requires Start(w)
    ensures RowInv(w) && CountInv(k, w)
  {
    assert Holders(w.runs) == {} && Notifiers(w.runs) == {};
  }

  // ----- The counted bound on memos -----

  /**
    With at most k runs in flight, the memos accepted for the row exceed by at most
    k those whose signature was lost.
  */
  lemma MemoBound(k: nat, w: World, steps: seq<Step>)
    requires Start(w)
    ensures var w' := Run(k, w, steps);
      && |w'.sent| <= k + w'.lost
      && |w'.callbacks| <= |w'.marks| <= k
  {
    StartInv(k, w);
    InvRun(k, w, steps);
    FewCommitters(Run(k, w, steps).runs);
  }

  /** `n` runs in a row die with their signature in hand. */
  function Lose(n: nat): seq<Step> {
    if n == 0 then [] else [Begin(0), Send(0, SentOk), Crash(0)] + Lose(n - 1)
  }

  /** `m` runs side by side, each holding its signature. */
  function Hold(m: nat): seq<Step> {
    if m == 0 then [] else Hold(m - 1) + [Begin(m - 1), Send(m - 1, SentOk)]
  }

  ghost predicate Unsent(w: World) {
    !w.rec.anchored && w.rec.sig.None?
  }

  lemma LoseOne(k: nat, w: World)
    requires k > 0 && Unsent(w) && w.runs == map[]
    ensures var w' := Next(k, Next(k, Next(k, w, Begin(0)), Send(0, SentOk)), Crash(0));
      Unsent(w') && w'.runs == map[] && w'.lost == w.lost + 1 && |w'.sent| == |w.sent| + 1
  {
    var w1 := SetPhase(w, 0, Ready);
    var w2 := SetPhase(Submit(w1), 0, Holding(|w.chain|));
    assert Next(k, w, Begin(0)) == w1 && Next(k, w1, Send(0, SentOk)) == w2;
    assert CrashRun(w2, 0).runs == map[];
  }

  lemma {:induction false} LoseRun(k: nat, w: World, n: nat)
    requires k > 0 && Unsent(w) && w.runs == map[]
    ensures var w' := Run(k, w, Lose(n));
      Unsent(w') && w'.runs == map[] && w'.lost == w.lost + n && |w'.sent| == |w.sent| + n
    decreases n
  {
    if n > 0 {
      var w1 := Next(k, w, Begin(0));
      var w2 := Next(k, w1, Send(0, SentOk));
      var w3 := Next(k, w2, Crash(0));
      LoseOne(k, w);
      var steps := Lose(n);
      assert steps[1..][1..][1..] == Lose(n - 1);
      assert Run(k, w, steps) == Run(k, w1, steps[1..]);
      assert Run(k, w1, steps[1..]) == Run(k, w2, steps[1..][1..]);
      assert Run(k, w2, steps[1..][1..]) == Run(k, w3, steps[1..][1..][1..]);
      LoseRun(k, w3, n - 1);
    }
  }

  lemma {:induction false} HoldRun(k: nat, w: World, m: nat)
    requires m <= k && Unsent(w) && w.runs == map[]
    ensures var w' := Run(k, w, Hold(m));
      Unsent(w') && |w'.runs| == m && (forall id :: id in w'.runs ==> id < m) && w'.lost == w.lost && |w'.sent| == |w.sent| + m
  {
    if m > 0 {
      HoldRun(k, w, m - 1);
      var w0 := Run(k, w, Hold(m - 1));
      var w1 := SetPhase(w0, m - 1, Ready);
      RunConcat(k, w, Hold(m - 1), [Begin(m - 1), Send(m - 1, SentOk)]);
      RunSnoc(k, w0, [Begin(m - 1)], Send(m - 1, SentOk));
      assert Run(k, w0, [Begin(m - 1)]) == w1;
      assert [Begin(m - 1)] + [Send(m - 1, SentOk)] == [Begin(m - 1), Send(m - 1, SentOk)];
      PutSize(w0.runs, m - 1, Ready);
      PutSize(w1.runs, m - 1, Holding(|w0.chain|));
    }
  }

  /** The bound is exact: for every k and every number of losses some run reaches it. */
  lemma MemoBoundReached(k: nat, n: nat, hash: string)
    requires k > 0
    ensures var w' := Run(k, Fresh(Event, false, hash), Lose(n) + Hold(k)); w'.lost == n && |w'.sent| == k + n
  {
    var w := Fresh(Event, false, hash);
    LoseRun(k, w, n);
    HoldRun(k, Run(k, w, Lose(n)), k);
    RunConcat(k, w, Lose(n), Hold(k));
  }

  predicate FaultFree(step: Step) {
    match step
    case Recover(_, result) => result.Applied?
    case Send(_, sent) => !sent.SentThenRaised?
    case Commit(_, result) => result.Applied?
    case Crash(_) => false
    case _ => true
  }

  lemma {:induction false} FaultFreeLosesNothing(k: nat, w: World, steps: seq<Step>)
    requires forall i :: 0 <= i < |steps| ==> FaultFree(steps[i])
    ensures Run(k, w, steps).lost == w.lost
    decreases |steps|
  {
    if steps != [] {
      assert FaultFree(steps[0]);
      FaultFreeLosesNothing(k, Next(k, w, steps[0]), steps[1..]);
    }
  }

  /** With job-id dedup (one run at a time) and no fault, at most one memo is ever sent for an event. */
  lemma OneMemoWithoutFaults(kind: Kind, hasCallback: bool, hash: string, steps: seq<Step>)
    requires forall i :: 0 <= i < |steps| ==> FaultFree(steps[i])
    ensures |Run(1, Fresh(kind, hasCallback, hash), steps).sent| <= 1
  {
    MemoBound(1, Fresh(kind, hasCallback, hash), steps);
    FaultFreeLosesNothing(1, Fresh(kind, hasCallback, hash), steps);
  }

  const TWO_SENDS: seq<Step> := [Begin(0), Begin(1), Send(0, SentOk), Send(1, SentOk)]
  const TWO_COMMITS: seq<Step> := [Commit(0, Applied), Commit(1, Applied), Notify(0), Notify(1)]

  /**
    A request enqueued by the API carries no job id, so the sweep can start a
    second job beside it: two memos and two callbacks without any fault, and only
    one of the two carried the signature that the row ends up with.
  */
  lemma TwoJobsSendTwice(k: nat, hash: string)
    requires k >= 2
    ensures forall step :: step in TWO_SENDS + TWO_COMMITS ==> FaultFree(step)
    ensures |Run(k, Fresh(Generic, true, hash), TWO_SENDS + TWO_COMMITS).sent| == 2
    ensures Run(k, Fresh(Generic, true, hash), TWO_SENDS + TWO_COMMITS).callbacks == [0, 1]
    ensures Run(k, Fresh(Generic, true, hash), TWO_SENDS + TWO_COMMITS).rec.sig == Some(1)
  {
    var w4 := TwoJobsSend(k, hash);
    TwoJobsCommit(k, w4);
    RunConcat(k, Fresh(Generic, true, hash), TWO_SENDS, TWO_COMMITS);
  }

  lemma TwoJobsSend(k: nat, hash: string) returns (w: World)
    requires k >= 2
    ensures Run(k, Fresh(Generic, true, hash), TWO_SENDS) == w
    ensures w.kind.Generic? && w.hasCallback && w.sent == [0, 1] && w.callbacks == []
    ensures w.runs == map[0 := Holding(0), 1 := Holding(1)]
  {
    var w0 := Fresh(Generic, true, hash);
    RunFour(k, w0, TWO_SENDS);
    var w2 := Next(k, Next(k, w0, Begin(0)), Begin(1));
    BothBegin(k, w0);
    w := Next(k, Next(k, w2, Send(0, SentOk)), Send(1, SentOk));
    assert w.runs == map[0 := Holding(0), 1 := Holding(1)];
  }

  lemma BothBegin(k: nat, w: World)
    requires k >= 2 && w.runs == map[] && !w.rec.anchored && w.rec.sig.None?
    ensures Next(k, Next(k, w, Begin(0)), Begin(1)) == w.(runs := map[0 := Ready, 1 := Ready])
  {
    assert Next(k, w, Begin(0)).runs == map[0 := Ready];
  }

  lemma TwoJobsCommit(k: nat, w: World)
    requires w.kind.Generic? && w.hasCallback && w.callbacks == []
    requires w.runs == map[0 := Holding(0), 1 := Holding(1)]
    ensures var w' := Run(k, w, TWO_COMMITS);
      w'.sent == w.sent && w'.callbacks == [0, 1] && w'.rec.sig == Some(1)
  {
    var w1 := Next(k, w, TWO_COMMITS[0]);
    assert w1.runs == map[0 := Notifying(0), 1 := Holding(1)];
    var w2 := Next(k, w1, TWO_COMMITS[1]);
    assert w2.runs == map[0 := Notifying(0), 1 := Notifying(1)];
    var w3 := Next(k, w2, TWO_COMMITS[2]);
    assert w3.runs == map[1 := Notifying(1)];
    var w4 := Next(k, w3, TWO_COMMITS[3]);
    RunFour(k, w, TWO_COMMITS);
  }

  // ----- What an anchored row is worth -----

  /**
    An anchored row has a signature, and in the log it shares with all other rows
    the memo under that signature is exactly the row's hash.
  */
  lemma AnchoredCarriesHash(k: nat, w: World, steps: seq<Step>)
    requires Start(w)
    ensures var w' := Run(k, w, steps);
      && w'.rec.hash == w.rec.hash
      && (w'.rec.anchored ==> w'.rec.sig.Some? && Carries(w', w'.rec.sig.value))
  {
    StartInv(k, w);
    InvRun(k, w, steps);
    HashFixed(k, w, steps);
  }

  lemma HashNext(k: nat, w: World, step: Step)
    ensures Next(k, w, step).rec.hash == w.rec.hash
  {
    match step
    case Recover(id, result) => assert RecoverRow(w, id, result).rec.hash == w.rec.hash;
    case Commit(id, result) => assert CommitMark(w, id, result).rec.hash == w.rec.hash;
    case Handle(id, applied) => assert HandleError(w, id, applied).rec.hash == w.rec.hash;
    case _ => assert Next(k, w, step).rec == w.rec;
  }

  lemma {:induction false} HashFixed(k: nat, w: World, steps: seq<Step>)
    ensures Run(k, w, steps).rec.hash == w.rec.hash
    decreases |steps|
  {
    if steps != [] { HashNext(k, w, steps[0]); HashFixed(k, Next(k, w, steps[0]), steps[1..]); }
  }

  /** The anchored flag never goes back. */
  lemma {:induction false} AnchoredForever(k: nat, w: World, steps: seq<Step>)
    requires w.rec.anchored
    ensures Run(k, w, steps).rec.anchored
    decreases |steps|
  {
    if steps != [] { AnchoredForever(k, Next(k, w, steps[0]), steps[1..]); }
  }

  /** Once the row is anchored and no run is in flight, nothing is written, sent or called back again. */
  lemma {:induction false} AnchoredIsQuiet(k: nat, w: World, steps: seq<Step>)
    requires w.rec.anchored && w.runs == map[]
    ensures var w' := Run(k, w, steps);
      w'.rec == w.rec && w'.sent == w.sent && w'.callbacks == w.callbacks && w'.runs == map[]
    decreases |steps|
  {
    if steps != [] { AnchoredIsQuiet(k, Next(k, w, steps[0]), steps[1..]); }
  }

  /**
    send_memo returns when the RPC node accepts the transaction and nothing waits
    for it to land. So the network may drop the memo of an anchored row, and then
    no continuation of any kind ever has a memo of this row on chain.
  */
  lemma AnchoredMayNeverLand(kind: Kind, hash: string, k: nat)
    requires k >= 1
    ensures exists steps: seq<Step> ::
      var w := Run(k, Fresh(kind, false, hash), steps);
      && w.rec.anchored && w.runs == map[]
      && forall more: seq<Step>, sig: nat :: sig in Run(k, w, more).sent ==> !OnChain(Run(k, w, more), sig)
  {
    var w0 := Fresh(kind, false, hash);
    var steps := [Begin(0), Send(0, SentOk), Commit(0, Applied), Settle(0, false)];
    RunFour(k, w0, steps);
    var w3 := Next(k, Next(k, Next(k, w0, Begin(0)), Send(0, SentOk)), Commit(0, Applied));
    assert w3.runs == map[];
    var w4 := Next(k, w3, Settle(0, false));
    assert Run(k, w0, steps) == w4;
    forall more: seq<Step>, sig: nat | sig in Run(k, w4, more).sent
      ensures !OnChain(Run(k, w4, more), sig)
    {
      AnchoredIsQuiet(k, w4, more);
      DroppedStays(k, w4, 0, more);
    }
  }

  lemma {:induction false} DroppedStays(k: nat, w: World, sig: nat, steps: seq<Step>)
    requires sig < |w.chain| && w.chain[sig].fate.Dropped?
    ensures var w' := Run(k, w, steps); sig < |w'.chain| && w'.chain[sig].fate.Dropped?
    decreases |steps|
  {
    if steps != [] {
      LogNext(k, w, steps[0]);
      DroppedStays(k, Next(k, w, steps[0]), sig, steps[1..]);
    }
  }

  /** The log only grows by accepted memos, and an accepted memo only settles, once. */
  lemma LogNext(k: nat, w: World, step: Step)
    ensures var w' := Next(k, w, step);
      || w'.chain == w.chain
      || (step.Settle? && w'.chain == SettleSubmission(w, step.sig, step.lands).chain)
      || (exists memo :: w'.chain == w.chain + [Submission(memo, Pending)])
  {
    match step
    case Begin(id) => assert BeginRun(k, w, id).chain == w.chain;
    case Lookup(id, found) => assert LookUp(w, id, found).chain == w.chain;
    case Recover(id, result) => assert RecoverRow(w, id, result).chain == w.chain;
    case Send(id, sent) => assert SendMemo(w, id, sent).chain in {w.chain, Submit(w).chain};
    case Commit(id, result) => assert CommitMark(w, id, result).chain == w.chain;
    case Handle(id, applied) => assert HandleError(w, id, applied).chain == w.chain;
    case Notify(id) => assert FireCallback(w, id).chain == w.chain;
    case Crash(id) => assert CrashRun(w, id).chain == w.chain;
    case _ =>
  }

  /**
    The exact condition: once a row is anchored and no run is in flight, its memo can
    still come to be on chain if and only if the network has not dropped it.
  */
  lemma AnchoredMayLandIffNotDropped(k: nat, w0: World, steps: seq<Step>)
    requires Start(w0) && Run(k, w0, steps).rec.anchored && Run(k, w0, steps).runs == map[]
    ensures var w := Run(k, w0, steps);
      && w.rec.sig.Some? && w.rec.sig.value < |w.chain|
      && ((exists more: seq<Step> :: OnChain(Run(k, w, more), w.rec.sig.value)) <==> !w.chain[w.rec.sig.value].fate.Dropped?)
  {
    AnchoredCarriesHash(k, w0, steps);
    var w := Run(k, w0, steps);
    var sig := w.rec.sig.value;
    if w.chain[sig].fate.Dropped? {
      forall more: seq<Step>
        ensures !OnChain(Run(k, w, more), sig)
      {
        DroppedStays(k, w, sig, more);
      }
    } else {
      var more := [Settle(sig, true)];
      assert Run(k, w, more) == Next(k, w, Settle(sig, true));
      assert OnChain(Run(k, w, more), sig);
    }
  }

  // ----- The recovery branch -----

  /**
    Signature and flag are written by one UPDATE, so from a row without a
    signature the recovery branch is never entered: a lost commit is re-sent. What
    the row stores is always the last mark, of a memo its own jobs sent.
  */
  lemma RecoveryUnreachable(k: nat, w: World, steps: seq<Step>)
    requires Start(w) && w.rec.sig.None?
    ensures var w' := Run(k, w, steps);
      && (w'.rec.sig.Some? <==> w'.rec.anchored)
      && (w'.rec.sig.Some? ==> w'.marks != [] && w'.rec.sig.value == w'.marks[|w'.marks| - 1] && w'.rec.sig.value in w'.sent)
      && (forall id :: id in w'.runs ==> !w'.runs[id].Looking? && !w'.runs[id].Recovering?)
  {
    StartInv(k, w);
    InvRun(k, w, steps);
    RecoveryDead(k, w, steps);
  }

  ghost predicate NoRecovery(w: World) {
    && (w.rec.sig.Some? <==> w.rec.anchored)
    && (w.rec.sig.Some? ==> w.marks != [] && w.rec.sig.value == w.marks[|w.marks| - 1])
    && (forall id :: id in w.runs ==> !w.runs[id].Looking? && !w.runs[id].Recovering?)
  }

  lemma RecoveryDeadNext(k: nat, w: World, step: Step)
    requires NoRecovery(w)
    ensures NoRecovery(Next(k, w, step))
  {
  }

  lemma {:induction false} RecoveryDead(k: nat, w: World, steps: seq<Step>)
    requires NoRecovery(w)
    ensures NoRecovery(Run(k, w, steps))
    decreases |steps|
  {
    if steps != [] {
      RecoveryDeadNext(k, w, steps[0]);
      RecoveryDead(k, Next(k, w, steps[0]), steps[1..]);
    }
  }

  /** The row carries a signature the chain confirms, and every run is still busy finding that out. */
  ghost predicate Confirmed(w: World, sig: nat) {
    && w.rec.sig == Some(sig) && OnChain(w, sig)
    && (forall id :: id in w.runs ==> w.runs[id] == Looking(sig) || w.runs[id] == Recovering(sig))
  }

  lemma ConfirmedNext(k: nat, w: World, sig: nat, step: Step)
    requires Confirmed(w, sig) && !(step.Lookup? && !step.found)
    ensures var w' := Next(k, w, step);
      Confirmed(w', sig) && w'.sent == w.sent && w'.callbacks == w.callbacks
  {
  }

  /**
    From a row that does carry a confirmed signature, a memo is sent only after a
    lookup failed to find it: as long as every lookup finds the transaction,
    nothing is sent and no callback fires, whatever else goes wrong.
  */
  lemma {:induction false} ConfirmedIsNotResent(k: nat, w: World, sig: nat, steps: seq<Step>)
    requires Confirmed(w, sig)
    requires forall i :: 0 <= i < |steps| ==> !(steps[i].Lookup? && !steps[i].found)
    ensures var w' := Run(k, w, steps);
      w'.sent == w.sent && w'.callbacks == w.callbacks && w'.rec.sig == w.rec.sig
    decreases |steps|
  {
    if steps != [] {
      assert !(steps[0].Lookup? && !steps[0].found);
      ConfirmedNext(k, w, sig, steps[0]);
      ConfirmedIsNotResent(k, Next(k, w, steps[0]), sig, steps[1..]);
    }
  }

  // ----- Callbacks -----

  /**
    With any number of runs in flight and any faults, a callback that fired carried
    the signature of a mark, of a memo sent for this row, with the row's hash in it.
  */
  lemma CallbackCarriesMarkedSig(k: nat, w: World, steps: seq<Step>, sig: nat)
    requires Start(w)
    ensures var w' := Run(k, w, steps);
      sig in w'.callbacks ==> w'.rec.anchored && sig in w'.marks && sig in w'.sent && Carries(w', sig)
  {
    StartInv(k, w);
    InvRun(k, w, steps);
  }

  /** With at most one run at a time, the callback that fired carried the signature the row stores. */
  lemma CallbackCarriesStoredSig(k: nat, w: World, steps: seq<Step>)
    requires Start(w) && k <= 1
    ensures var w' := Run(k, w, steps);
      w'.callbacks != [] ==> w'.rec.anchored && w'.rec.sig.Some? && w'.callbacks == [w'.rec.sig.value]
  {
    SingleRun(k, w, steps);
  }

  ghost predicate Single(w: World) {
    && (forall i, j :: i in w.runs && j in w.runs ==> i == j)
    && (forall id :: id in w.runs ==>
         match w.runs[id]
         case Notifying(sig) => w.rec.anchored && w.rec.sig == Some(sig) && w.callbacks == []
         case Handling => true
         case _ => !w.rec.anchored && w.callbacks == [])
    && (w.callbacks != [] ==> w.rec.anchored && w.rec.sig.Some? && w.callbacks == [w.rec.sig.value])
  }

  lemma SingleNext(k: nat, w: World, step: Step)
    requires Single(w) && k <= 1
    ensures Single(Next(k, w, step))
  {
    if step.Begin? && w.runs != map[] {
      var id :| id in w.runs;
      assert w.runs.Keys == {id};
    }
  }

  lemma {:induction false} SingleRun(k: nat, w: World, steps: seq<Step>)
    requires Single(w) && k <= 1
    ensures Single(Run(k, w, steps))
    decreases |steps|
  {
    if steps != [] {
      SingleNext(k, w, steps[0]);
      SingleRun(k, Next(k, w, steps[0]), steps[1..]);
    }
  }

  ghost predicate AllFaultFree(steps: seq<Step>) {
    forall step :: step in steps ==> FaultFree(step)
  }

  /** Every signature called back is the one the row stores. */
  ghost predicate CalledBackStored(w: World) {
    forall sig :: sig in w.callbacks ==> w.rec.sig == Some(sig)
  }

  /**
    Even without any fault, a tenant can be called back with a signature its row does
    not store; that never happens if and only if jobs of a request never overlap.
  */
  lemma CallbackStoredIffOneJob(k: nat, hash: string)
    ensures (forall steps :: AllFaultFree(steps) ==> CalledBackStored(Run(k, Fresh(Generic, true, hash), steps))) <==> k <= 1
  {
    if k <= 1 {
      forall steps | AllFaultFree(steps)
        ensures CalledBackStored(Run(k, Fresh(Generic, true, hash), steps))
      {
        CallbackCarriesStoredSig(k, Fresh(Generic, true, hash), steps);
      }
    } else {
      TwoJobsSendTwice(k, hash);
      assert AllFaultFree(TWO_SENDS + TWO_COMMITS);
      assert 0 in Run(k, Fresh(Generic, true, hash), TWO_SENDS + TWO_COMMITS).callbacks;
    }
  }
}
