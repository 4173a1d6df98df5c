/**
  The custody hash chain of one asset: the hash of an event covers its content and
  the hash of the event before it, and the asset row keeps the last hash and the
  current custodian. Requests on the asset run concurrently: state-changing events
  lock the row, informational events do not.
*/
module CustodyChain {
  import opened Wrappers

  type Hash = string

  /** Everything that is hashed except the previous hash; the asset is fixed. */
  datatype Content = Content(
    eventType: string,
    from: Option<string>,
    to: Option<string>,
    location: Option<string>,
    data: string,
    timestamp: nat)

  datatype Event = Event(content: Content, prev: Option<Hash>, hash: Hash)

  /** compute_event_hash: canonical JSON and SHA-256, here any injective function. */
  type Hasher = (Content, Option<Hash>) -> Hash

  ghost predicate Injective(h: Hasher) {
    forall c, p, c', p' :: h(c, p) == h(c', p') ==> c == c' && p == p'
  }

  datatype AssetRow = AssetRow(last: Option<Hash>, custodian: string)

  datatype Request = Request(eventType: string, to: Option<string>, location: Option<string>, data: string, informational: bool)

  // ----- Verification of a history -----

  function LastHash(events: seq<Event>): Option<Hash> {
    if events == [] then None else Some(events[|events| - 1].hash)
  }

  /** The documented procedure: recompute every hash from the event and the previous record. */
  ghost predicate Verified(h: Hasher, events: seq<Event>) {
    forall i :: 0 <= i < |events| ==>
      events[i].prev == LastHash(events[..i]) && events[i].hash == h(events[i].content, events[i].prev)
  }

  /** The custodian a history names: the most recent receiving wallet. */
  function Holder(events: seq<Event>): Option<string> {
    if events == [] then None
    else if events[|events| - 1].content.to.Some? then events[|events| - 1].content.to
    else Holder(events[..|events| - 1])
  }

  /** Every event after the first leaves the custodian that the events before it name. */
  ghost predicate Continuous(events: seq<Event>) {
    forall i :: 1 <= i < |events| ==> events[i].content.from == Holder(events[..i])
  }

  lemma VerifiedPrefix(h: Hasher, events: seq<Event>, n: nat)
    requires Verified(h, events) && n <= |events|
    ensures Verified(h, events[..n])
  {
    forall i | 0 <= i < n
      ensures events[..n][i].prev == LastHash(events[..n][..i])
    {
      assert events[..n][..i] == events[..i];
    }
  }

  /** A final hash pins the whole history: two verified histories that end in it are the same. */
  lemma {:induction false} FinalHashPinsHistory(h: Hasher, a: seq<Event>, b: seq<Event>)
    requires Injective(h) && Verified(h, a) && Verified(h, b)
    requires LastHash(a) == LastHash(b)
    ensures a == b
    decreases |a|
  {
    if a != [] {
      var i, j := |a| - 1, |b| - 1;
      assert a[i].content == b[j].content && a[i].prev == b[j].prev;
      VerifiedPrefix(h, a, i);
      VerifiedPrefix(h, b, j);
      FinalHashPinsHistory(h, a[..i], b[..j]);
      assert a == a[..i] + [a[i]] && b == b[..j] + [b[j]];
    }
  }

  /** In a verified history of distinct events no two events follow the same one: a fork fails in every order. */
  lemma ForkNeverVerifies(h: Hasher, events: seq<Event>, i: nat, j: nat)
    requires Injective(h) && Verified(h, events) && i < j < |events|
    requires forall m, n :: 0 <= m < n < |events| ==> events[m].content != events[n].content
    ensures events[i].prev != events[j].prev
  {
    assert events[..j][|events[..j]| - 1] == events[j - 1];
    if i > 0 {
      assert events[..i][|events[..i]| - 1] == events[i - 1];
      assert events[i - 1].content != events[j - 1].content;
    }
  }

  // ----- Concurrent requests -----

  /**
    `reading` holds the row each running request read; a locked request also holds
    `lock`. Requests in `finished` have committed or aborted.
  */
  datatype Asset = Asset(
    row: AssetRow,
    events: seq<Event>,
    clock: nat,
    lock: Option<nat>,
    reading: map<nat, AssetRow>,
    finished: set<nat>)

  datatype Step = Read(id: nat) | Write(id: nat) | Abort(id: nat)

  /** _create_event on the row the request read. */
  function NewEvent(h: Hasher, req: Request, seen: AssetRow, clock: nat): Event {
    var content := Content(req.eventType, Some(seen.custodian), req.to, req.location, req.data, clock);
    Event(content, seen.last, h(content, seen.last))
  }

  /** update_after_event: an unnamed receiver writes the custodian the request read. */
  function NewRow(req: Request, seen: AssetRow, event: Event): AssetRow {
    AssetRow(Some(event.hash), if req.to.Some? then req.to.value else seen.custodian)
  }

  /** The INSERT, the UPDATE and the commit; the UPDATE waits for the row lock. */
  function Append(h: Hasher, a: Asset, req: Request, seen: AssetRow): Asset {
    var event := NewEvent(h, req, seen, a.clock);
    a.(row := NewRow(req, seen, event), events := a.events + [event], clock := a.clock + 1)
  }

  function Leave(a: Asset, id: nat): Asset {
    a.(reading := a.reading - {id}, finished := a.finished + {id}, lock := if a.lock == Some(id) then None else a.lock)
  }

  function Next(h: Hasher, reqs: seq<Request>, a: Asset, step: Step): Asset {
    if step.id >= |reqs| || step.id in a.finished then a
    else match step
      case Read(id) =>
        if id in a.reading then a
        else if reqs[id].informational then a.(reading := a.reading[id := a.row])
        else if a.lock.Some? then a
        else a.(reading := a.reading[id := a.row], lock := Some(id))
      case Write(id) =>
        if id !in a.reading || (a.lock.Some? && a.lock != Some(id)) then a
        else Leave(Append(h, a, reqs[id], a.reading[id]), id)
      case Abort(id) =>
        if id !in a.reading then a else Leave(a, id)
  }

  function Run(h: Hasher, reqs: seq<Request>, a: Asset, steps: seq<Step>): Asset
    decreases |steps|
  {
    if steps == [] then a else Run(h, reqs, Next(h, reqs, a, steps[0]), steps[1..])
  }

  /** One verified line of events that ends in the row's hash and names the row's custodian. */
  ghost predicate Sound(h: Hasher, a: Asset) {
    && Verified(h, a.events) && a.row.last == LastHash(a.events)
    && Continuous(a.events) && Holder(a.events) == Some(a.row.custodian)
  }

  /** A committed asset with no request running. */
  ghost predicate Start(h: Hasher, a: Asset) {
    && a.events != [] && Sound(h, a)
    && a.lock.None? && a.reading == map[] && a.finished == {}
    && (forall i :: 0 <= i < |a.events| ==> a.events[i].content.timestamp < a.clock)
  }

  /** Every request takes the row lock, or there is no other request to interfere with. */
  predicate Serialized(reqs: seq<Request>) {
    |reqs| <= 1 || forall i :: 0 <= i < |reqs| ==> !reqs[i].informational
  }

  ghost predicate Inv(h: Hasher, reqs: seq<Request>, a: Asset) {
    && a.events != [] && Sound(h, a)
    && (forall id :: id in a.reading ==> id < |reqs| && a.reading[id] == a.row)
    && (forall id, id' :: id in a.reading && id' in a.reading ==> id == id')
    && (forall id :: id in a.reading && !reqs[id].informational ==> a.lock == Some(id))
    && (a.lock.Some? ==> a.lock.value in a.reading)
  }

  lemma AppendSound(h: Hasher, a: Asset, req: Request)
    requires Sound(h, a) && a.events != []
    ensures Sound(h, Append(h, a, req, a.row))
  {
    var event := NewEvent(h, req, a.row, a.clock);
    var events := a.events + [event];
    assert events[..|a.events|] == a.events;
    forall i | 0 <= i < |events|
      ensures events[i].prev == LastHash(events[..i]) && events[i].hash == h(events[i].content, events[i].prev)
    {
      if i < |a.events| {
        assert events[..i] == a.events[..i] && events[i] == a.events[i];
      }
    }
    forall i | 1 <= i < |events|
      ensures events[i].content.from == Holder(events[..i])
    {
      if i < |a.events| {
        assert events[..i] == a.events[..i] && events[i] == a.events[i];
      }
    }
  }

  lemma InvNext(h: Hasher, reqs: seq<Request>, a: Asset, step: Step)
    requires Serialized(reqs) && Inv(h, reqs, a)
    ensures Inv(h, reqs, Next(h, reqs, a, step))
  {
    if step.Write? && step.id in a.reading && step.id < |reqs| {
      AppendSound(h, a, reqs[step.id]);
    }
  }

  lemma {:induction false} InvRun(h: Hasher, reqs: seq<Request>, a: Asset, steps: seq<Step>)
    requires Serialized(reqs) && Inv(h, reqs, a)
    ensures Inv(h, reqs, Run(h, reqs, a, steps))
    decreases |steps|
  {
    if steps != [] {
      InvNext(h, reqs, a, steps[0]);
      InvRun(h, reqs, Next(h, reqs, a, steps[0]), steps[1..]);
    }
  }

  // ----- What is in the events -----

  /** The event records what the request asked for. */
  predicate Records(e: Event, req: Request) {
    e.content.eventType == req.eventType && e.content.to == req.to && e.content.location == req.location && e.content.data == req.data
  }

  predicate Distinct(ids: seq<nat>) {
    forall i, j :: 0 <= i < j < |ids| ==> ids[i] != ids[j]
  }

  /** The events `start` has, and then one for each of the finished requests `writers`, with its type, receiver, location and data. */
  ghost predicate Written(h: Hasher, reqs: seq<Request>, start: Asset, a: Asset, writers: seq<nat>) {
    && |a.events| == |start.events| + |writers| && start.events <= a.events
    && Distinct(writers)
    && forall i :: 0 <= i < |writers| ==>
         var e := a.events[|start.events| + i];
         writers[i] < |reqs| && writers[i] in a.finished && Records(e, reqs[writers[i]]) && e.hash == h(e.content, e.prev)
  }

  lemma WrittenAppend(h: Hasher, reqs: seq<Request>, start: Asset, a: Asset, writers: seq<nat>, id: nat)
    requires Written(h, reqs, start, a, writers) && id < |reqs| && id !in a.finished && id in a.reading
    ensures Written(h, reqs, start, Leave(Append(h, a, reqs[id], a.reading[id]), id), writers + [id])
  {
    var a' := Leave(Append(h, a, reqs[id], a.reading[id]), id);
    var all := writers + [id];
    assert a'.events == a.events + [NewEvent(h, reqs[id], a.reading[id], a.clock)];
    assert start.events <= a.events <= a'.events;
    forall i | 0 <= i < |all|
      ensures var e := a'.events[|start.events| + i];
        all[i] < |reqs| && all[i] in a'.finished && Records(e, reqs[all[i]]) && e.hash == h(e.content, e.prev)
    {
      if i < |writers| {
        assert all[i] == writers[i] && a'.events[|start.events| + i] == a.events[|start.events| + i];
      }
    }
  }

  lemma WrittenNext(h: Hasher, reqs: seq<Request>, start: Asset, a: Asset, writers: seq<nat>, step: Step) returns (writers': seq<nat>)
    requires Written(h, reqs, start, a, writers)
    ensures Written(h, reqs, start, Next(h, reqs, a, step), writers')
  {
    var a' := Next(h, reqs, a, step);
    if a'.events == a.events {
      assert a.finished <= a'.finished;
      writers' := writers;
    } else {
      WrittenAppend(h, reqs, start, a, writers, step.id);
      writers' := writers + [step.id];
    }
  }

  /**
    In every interleaving, with any requests: each event added is one request's own, and
    records its type, receiver, location and data under a hash of all of them.
  */
  lemma {:induction false} EventsRecordRequests(h: Hasher, reqs: seq<Request>, start: Asset, a: Asset, writers: seq<nat>, steps: seq<Step>)
      returns (writers': seq<nat>)
    requires Written(h, reqs, start, a, writers)
    ensures Written(h, reqs, start, Run(h, reqs, a, steps), writers')
    decreases |steps|
  {
    if steps == [] {
      writers' := writers;
    } else {
      var w := WrittenNext(h, reqs, start, a, writers, steps[0]);
      writers' := EventsRecordRequests(h, reqs, start, Next(h, reqs, a, steps[0]), w, steps[1..]);
    }
  }

  /** Requests that differ in any of these have different hashes, whatever they read and whenever they were made. */
  lemma HashTellsRequests(h: Hasher, reqs: seq<Request>, a: Asset, steps: seq<Step>) returns (writers: seq<nat>)
    requires Injective(h)
    ensures Written(h, reqs, a, Run(h, reqs, a, steps), writers)
    ensures var events := Run(h, reqs, a, steps).events;
      forall i, j :: 0 <= i < j < |writers| && !Alike(reqs[writers[i]], reqs[writers[j]]) ==>
        events[|a.events| + i].hash != events[|a.events| + j].hash
  {
    writers := EventsRecordRequests(h, reqs, a, a, [], steps);
  }

  predicate Alike(a: Request, b: Request) {
    a.eventType == b.eventType && a.to == b.to && a.location == b.location && a.data == b.data
  }

  /** Two requests that read the same row and write one after the other leave a fork. */
  function Race(i: nat, j: nat): seq<Step> {
    [Read(i), Read(j), Write(j), Write(i)]
  }

  lemma RaceRun(h: Hasher, reqs: seq<Request>, a: Asset, i: nat, j: nat)
    requires Start(h, a) && i < |reqs| && j < |reqs| && i != j && reqs[i].informational
    ensures var first := NewEvent(h, reqs[j], a.row, a.clock);
      var second := NewEvent(h, reqs[i], a.row, a.clock + 1);
      Run(h, reqs, a, Race(i, j)).events == a.events + [first] + [second]
      && Run(h, reqs, a, Race(i, j)).row == NewRow(reqs[i], a.row, second)
      && Run(h, reqs, a, Race(i, j)).finished == {i, j}
  {
    var a2 := RaceReads(h, reqs, a, i, j);
    RaceWrites(h, reqs, a, a2, i, j);
  }

  lemma RaceWrites(h: Hasher, reqs: seq<Request>, a: Asset, a2: Asset, i: nat, j: nat)
    requires i < |reqs| && j < |reqs| && i != j && a.finished == {}
    requires a2 == a.(reading := map[i := a.row, j := a.row], lock := if reqs[j].informational then None else Some(j))
    ensures var first := NewEvent(h, reqs[j], a.row, a.clock);
      var second := NewEvent(h, reqs[i], a.row, a.clock + 1);
      var a' := Run(h, reqs, a2, Race(i, j)[2..]);
      a'.events == a.events + [first] + [second] && a'.row == NewRow(reqs[i], a.row, second) && a'.finished == {i, j}
  {
    var a3 := Next(h, reqs, a2, Write(j));
    assert a3 == Leave(Append(h, a2, reqs[j], a.row), j);
    var a4 := Next(h, reqs, a3, Write(i));
    assert a4 == Leave(Append(h, a3, reqs[i], a.row), i);
    var steps := Race(i, j)[2..];
    assert steps == [Write(j), Write(i)] && steps[1..] == [Write(i)];
    assert Run(h, reqs, a3, [Write(i)]) == a4;
  }

  lemma RaceReads(h: Hasher, reqs: seq<Request>, a: Asset, i: nat, j: nat) returns (a2: Asset)
    requires Start(h, a) && i < |reqs| && j < |reqs| && i != j && reqs[i].informational
    ensures Run(h, reqs, a, Race(i, j)) == Run(h, reqs, a2, Race(i, j)[2..])
    ensures a2 == a.(reading := map[i := a.row, j := a.row], lock := if reqs[j].informational then None else Some(j))
  {
    var steps := Race(i, j);
    var a1 := Next(h, reqs, a, Read(i));
    a2 := Next(h, reqs, a1, Read(j));
    assert steps[1..][1..] == steps[2..];
    assert Run(h, reqs, a, steps) == Run(h, reqs, a1, steps[1..]);
  }

  lemma RaceForks(h: Hasher, reqs: seq<Request>, a: Asset, i: nat, j: nat)
    requires Injective(h) && Start(h, a) && i < |reqs| && j < |reqs| && i != j && reqs[i].informational
    ensures !Verified(h, Run(h, reqs, a, Race(i, j)).events)
  {
    RaceRun(h, reqs, a, i, j);
    var events := Run(h, reqs, a, Race(i, j)).events;
    var n := |a.events|;
    assert events[..n + 1][n] == events[n];
    assert events[n + 1].prev == a.row.last && events[n].prev == a.row.last;
    assert a.events[n - 1].content.timestamp < events[n].content.timestamp;
    assert a.events[n - 1].hash == h(a.events[n - 1].content, a.events[n - 1].prev);
    assert a.row.last != Some(events[n].hash);
  }

  /**
    The chain stays one verified line, with the custody it records continuous, in
    every interleaving of the requests if and only if all of them lock the row (or
    there is at most one): an informational event beside any other request can
    fork it.
  */
  lemma ChainSoundIffSerialized(h: Hasher, reqs: seq<Request>, a: Asset)
    requires Injective(h) && Start(h, a)
    ensures (forall steps :: Sound(h, Run(h, reqs, a, steps))) <==> Serialized(reqs)
  {
    if Serialized(reqs) {
      forall steps ensures Sound(h, Run(h, reqs, a, steps)) {
        InvRun(h, reqs, a, steps);
      }
    } else {
      var i :| 0 <= i < |reqs| && reqs[i].informational;
      RaceForks(h, reqs, a, i, if i == 0 then 1 else 0);
    }
  }

  /** The same race undoes a handoff: the note writes back the custodian it read. */
  lemma NoteUndoesHandoff(h: Hasher, a: Asset, note: Request, handoff: Request)
    requires Start(h, a) && note.informational && note.to.None? && handoff.to.Some?
    ensures exists steps ::
      var a' := Run(h, [note, handoff], a, steps);
      a'.row.custodian == a.row.custodian && Holder(a'.events) == handoff.to && a'.finished == {0, 1}
  {
    var reqs := [note, handoff];
    RaceRun(h, reqs, a, 0, 1);
    var steps := Race(0, 1);
    var a' := Run(h, reqs, a, steps);
    var n := |a.events|;
    assert a'.events[..n + 1][n] == a'.events[n];
    assert Holder(a'.events[..n + 1]) == handoff.to;
    assert Holder(a'.events) == handoff.to;
  }

  // ----- The critical path as the service runs it -----

  /** What the registry and the workflow answer about a request. */
  datatype Checks = Checks(found: bool, custodianActive: bool, transition: bool, receiverActive: bool)

  datatype Outcome = Created(event: Event) | NotFound | StateConflict | NotAllowlisted

  class CustodyService {
    var row: AssetRow
    var events: seq<Event>
    var clock: nat

    ghost function View(finished: set<nat>): Asset
      reads this
    {
      Asset(row, events, clock, None, map[], finished)
    }

    constructor (row: AssetRow, events: seq<Event>, clock: nat)
      ensures this.row == row && this.events == events && this.clock == clock
    {
      this.row, this.events, this.clock := row, events, clock;
    }

    /** Hash, INSERT and UPDATE for the row `seen`, which a concurrent request may have replaced. */
    method CreateEvent(h: Hasher, req: Request, seen: AssetRow) returns (event: Event)
      modifies this
      ensures event.content == Content(req.eventType, Some(seen.custodian), req.to, req.location, req.data, old(clock))
      ensures event.prev == seen.last && event.hash == h(event.content, event.prev)
      ensures events == old(events) + [event] && clock == old(clock) + 1
      ensures row == AssetRow(Some(event.hash), if req.to.Some? then req.to.value else seen.custodian)
    {
      var content := Content(req.eventType, Some(seen.custodian), req.to, req.location, req.data, clock);
      event := Event(content, seen.last, h(content, seen.last));
      events := events + [event];
      var newCustodian := if req.to.Some? then req.to.value else seen.custodian;
      row := AssetRow(Some(event.hash), newCustodian);
      clock := clock + 1;
    }

    /**
      A handoff with nothing running beside it: either an error that changes
      nothing, or the two protocol steps of its request. `slug` is the event type that
      the workflow resolved for a handoff.
    */
    method Handoff(h: Hasher, slug: string, to: string, location: Option<string>, data: string, checks: Checks) returns (outcome: Outcome)
      modifies this
      ensures outcome.NotFound? <==> !checks.found
      ensures outcome.StateConflict? <==> checks.found && !(checks.custodianActive && checks.transition)
      ensures outcome.NotAllowlisted? <==> checks.found && checks.custodianActive && checks.transition && !checks.receiverActive
      ensures !outcome.Created? ==> row == old(row) && events == old(events) && clock == old(clock)
      ensures outcome.Created? ==>
        View({0}) == Run(h, [Request(slug, Some(to), location, data, false)], old(View({})), [Read(0), Write(0)])
      ensures outcome.Created? ==>
        && outcome.event.content == Content(slug, Some(old(row.custodian)), Some(to), location, data, old(clock))
        && outcome.event.prev == old(row.last) && outcome.event.hash == h(outcome.event.content, outcome.event.prev)
        && events == old(events) + [outcome.event] && clock == old(clock) + 1
      ensures outcome.Created? ==> row.custodian == to && row.last == Some(outcome.event.hash)
      ensures outcome.Created? && old(events != [] && Sound(h, View({}))) ==> Sound(h, View({0}))
    {
      if !checks.found {
        return NotFound;
      }
      if !checks.custodianActive || !checks.transition {
        return StateConflict;
      }
      if !checks.receiverActive {
        return NotAllowlisted;
      }
      var req := Request(slug, Some(to), location, data, false);
      ghost var a0 := View({});
      HandoffSteps(h, a0, req);
      if a0.events != [] && Sound(h, a0) {
        AppendSound(h, a0, req);
      }
      var event := CreateEvent(h, req, row);
      return Created(event);
    }
  }

  lemma HandoffSteps(h: Hasher, a: Asset, req: Request)
    requires a.lock.None? && a.reading == map[] && a.finished == {} && !req.informational
    ensures Run(h, [req], a, [Read(0), Write(0)]) == Append(h, a, req, a.row).(finished := {0})
  {
    var a1 := Next(h, [req], a, Read(0));
    var a2 := Next(h, [req], a1, Write(0));
    assert a2.reading == map[];
    assert [Read(0), Write(0)][1..] == [Write(0)];
    assert Run(h, [req], a1, [Write(0)]) == a2;
  }
}
