/**
  Authenticated fetch with a single shared token refresh. Any number of calls run
  concurrently; the module variable `_refreshing` is the slot they share. A step
  is what happens between two awaits, and a step that cannot happen changes nothing.
*/
module AuthRefresh {
  import opened Wrappers

  /** The auth store; an empty string stands for a missing token, as both are falsy. */
  datatype Store = Store(user: Option<string>, access: string, refresh: string)

  /** The module variable: null, a refresh in flight, or a promise that settled to null and stays. */
  datatype Slot = Empty | Pending(flight: nat) | SettledNull

  /** What a refresh captured before its request left; its number is its position in `posts`. */
  datatype Flight = Flight(token: string, user: Option<string>)

  /** The answer to a refresh request: not ok, an exception, or a token pair. */
  datatype Reply = Refused | Failed | Tokens(access: string, refresh: Option<string>)

  datatype Phase =
    | First                    // the first fetch is in flight
    | Waiting(flight: nat)     // awaiting a refresh
    | Resumable(token: string) // the awaited promise settled
    | Second                   // the retry is in flight
    | Done

  datatype Call = Call(auth: bool, phase: Phase, fetches: nat)

  /** `posts` logs the refresh token of every refresh request sent. */
  datatype Client = Client(
    store: Store,
    slot: Slot,
    flights: map<nat, Flight>,
    calls: map<nat, Call>,
    posts: seq<string>)

  datatype Step =
    | Open(id: nat, auth: bool)
    | Answer(id: nat, unauthorized: bool)
    | Settle(flight: nat, reply: Reply)
    | Resume(id: nat)
    | Finish(id: nat)
    | Login(user: string, access: string, refresh: string)
    | Logout

  const CLEARED := Store(None, "", "")

  function SetCall(c: Client, id: nat, call: Call): Client {
    c.(calls := c.calls[id := call])
  }

  /** refreshAccessToken up to its first await, for the call `id`. */
  function EnterRefresh(c: Client, id: nat): Client
    requires id in c.calls
  {
    var call := c.calls[id];
    match c.slot
    case Pending(flight) => SetCall(c, id, call.(phase := Waiting(flight)))
    case SettledNull => SetCall(c, id, call.(phase := Resumable("")))
    case Empty =>
      if c.store.refresh == "" then
        SetCall(c.(slot := SettledNull), id, call.(phase := Resumable("")))
      else
        var flight := |c.posts|;
        SetCall(c.(slot := Pending(flight),
                   flights := c.flights[flight := Flight(c.store.refresh, c.store.user)],
                   posts := c.posts + [c.store.refresh]),
                id, call.(phase := Waiting(flight)))
  }

  /** The store after the refresh `f` got `reply`. */
  function Refreshed(store: Store, f: Flight, reply: Reply): Store {
    match reply
    case Refused => CLEARED
    case Failed => CLEARED
    case Tokens(access, refresh) =>
      if f.user.Some? && access != ""
      then Store(f.user, access, if refresh.Some? then refresh.value else f.token)
      else store
  }

  /** What the shared promise resolves to; null is the empty string. */
  function Resolution(f: Flight, reply: Reply): string {
    if reply.Tokens? && f.user.Some? then reply.access else ""
  }

  function Wake(calls: map<nat, Call>, flight: nat, token: string): map<nat, Call> {
    map id | id in calls :: if calls[id].phase == Waiting(flight) then calls[id].(phase := Resumable(token)) else calls[id]
  }

  function Next(c: Client, step: Step): Client {
    match step
    case Open(id, auth) =>
      if id in c.calls then c else SetCall(c, id, Call(auth, First, 1))
    case Answer(id, unauthorized) =>
      if id !in c.calls || !c.calls[id].phase.First? then c
      else if unauthorized && c.calls[id].auth then EnterRefresh(c, id)
      else SetCall(c, id, c.calls[id].(phase := Done))
    case Settle(flight, reply) =>
      if flight !in c.flights then c
      else Client(Refreshed(c.store, c.flights[flight], reply), Empty, c.flights - {flight},
                  Wake(c.calls, flight, Resolution(c.flights[flight], reply)), c.posts)
    case Resume(id) =>
      if id !in c.calls || !c.calls[id].phase.Resumable? then c
      else if c.calls[id].phase.token != "" then SetCall(c, id, c.calls[id].(phase := Second, fetches := c.calls[id].fetches + 1))
      else SetCall(c, id, c.calls[id].(phase := Done))
    case Finish(id) =>
      if id !in c.calls || !c.calls[id].phase.Second? then c
      else SetCall(c, id, c.calls[id].(phase := Done))
    case Login(user, access, refresh) => c.(store := Store(Some(user), access, refresh))
    case Logout => c.(store := CLEARED)
  }

  function Run(c: Client, steps: seq<Step>): Client
    decreases |steps|
  {
    if steps == [] then c else Run(Next(c, steps[0]), steps[1..])
  }

  /** The page after loading, with whatever the store persisted. */
  ghost predicate Start(c: Client) {
    c.slot == Empty && c.flights == map[] && c.calls == map[] && c.posts == []
  }

  // ----- One refresh at a time, two fetches per call -----

  ghost predicate CallOk(c: Client, call: Call) {
    match call.phase
    case First => call.fetches == 1
    case Waiting(flight) => call.fetches == 1 && c.slot == Pending(flight)
    case Resumable(_) => call.fetches == 1
    case Second => call.fetches == 2
    case Done => call.fetches <= 2
  }

  ghost predicate Inv(c: Client) {
    && c.flights.Keys == (if c.slot.Pending? then {c.slot.flight} else {})
    && (forall f :: f in c.flights ==> f == |c.posts| - 1 && c.posts[f] == c.flights[f].token)
    && (forall id :: id in c.calls ==> CallOk(c, c.calls[id]))
  }

  lemma InvSettle(c: Client, flight: nat, reply: Reply)
    requires Inv(c)
    ensures Inv(Next(c, Settle(flight, reply)))
  {
  }

  lemma InvNext(c: Client, step: Step)
    requires Inv(c)
    ensures Inv(Next(c, step))
  {
    if step.Settle? {
      InvSettle(c, step.flight, step.reply);
    }
  }

  lemma {:induction false} InvRun(c: Client, steps: seq<Step>)
    requires Inv(c)
    ensures Inv(Run(c, steps))
    decreases |steps|
  {
    if steps != [] {
      InvNext(c, steps[0]);
      InvRun(Next(c, steps[0]), steps[1..]);
    }
  }

  /** In every interleaving at most one refresh is in flight, every waiting call awaits it, and no call fetches its URL more than twice. */
  lemma SingleFlight(c: Client, steps: seq<Step>)
    requires Start(c)
    ensures var c' := Run(c, steps);
      && |c'.flights| <= 1
      && (forall id :: id in c'.calls ==> c'.calls[id].fetches <= 2)
      && (forall id :: id in c'.calls && c'.calls[id].phase.Waiting? ==> c'.calls[id].phase.flight in c'.flights)
  {
    InvRun(c, steps);
    var c' := Run(c, steps);
    if c'.slot.Pending? {
      assert c'.flights.Keys == {c'.slot.flight};
    }
    assert |c'.flights| == |c'.flights.Keys|;
    forall id | id in c'.calls
      ensures c'.calls[id].fetches <= 2
      ensures c'.calls[id].phase.Waiting? ==> c'.calls[id].phase.flight in c'.flights
    {
      assert CallOk(c', c'.calls[id]);
    }
  }

  // ----- The early return without a refresh token -----

  /** The step that answers 401 on an empty slot while the store has no refresh token. */
  predicate EntersWithoutToken(c: Client, step: Step) {
    step.Answer? && step.unauthorized && step.id in c.calls && c.calls[step.id].phase.First? && c.calls[step.id].auth
    && c.slot.Empty? && c.store.refresh == ""
  }

  lemma StuckNext(c: Client, step: Step)
    requires Inv(c)
    ensures Next(c, step).slot.SettledNull? <==> (c.slot.SettledNull? || EntersWithoutToken(c, step))
  {
  }

  /**
    The slot is released after every refresh that had a token. It is stuck on a
    settled null exactly when some call entered without one: the return before the
    try block skips the finally that clears the slot.
  */
  lemma {:induction false} StuckIffEnteredWithoutToken(c: Client, steps: seq<Step>)
    requires Inv(c) && !c.slot.SettledNull?
    ensures Run(c, steps).slot.SettledNull? <==> exists i :: 0 <= i < |steps| && EntersWithoutToken(Run(c, steps[..i]), steps[i])
    decreases |steps|
  {
    if steps != [] {
      var last := |steps| - 1;
      RunSnoc(c, steps[..last], steps[last]);
      assert steps == steps[..last] + [steps[last]];
      InvRun(c, steps[..last]);
      StuckNext(Run(c, steps[..last]), steps[last]);
      StuckIffEnteredWithoutToken(c, steps[..last]);
      forall i | 0 <= i < last
        ensures EntersWithoutToken(Run(c, steps[..last][..i]), steps[..last][i]) <==> EntersWithoutToken(Run(c, steps[..i]), steps[i])
      {
        assert steps[..last][..i] == steps[..i];
      }
    }
  }

  lemma {:induction false} RunSnoc(c: Client, steps: seq<Step>, last: Step)
    ensures Run(c, steps + [last]) == Next(Run(c, steps), last)
    decreases |steps|
  {
    if steps == [] {
      assert Run(Next(c, last), []) == Next(c, last);
      assert (steps + [last])[1..] == [];
    } else {
      assert (steps + [last])[1..] == steps[1..] + [last];
      RunSnoc(Next(c, steps[0]), steps[1..], last);
    }
  }

  /** A call that has not retried and holds no token to retry with. */
  predicate NoRetry(call: Call) {
    call.fetches <= 1 && !call.phase.Second? && !(call.phase.Resumable? && call.phase.token != "")
  }

  ghost predicate Dead(c: Client) {
    c.slot.SettledNull? && c.flights == map[]
  }

  /**
    From then on no refresh is ever sent and no call ever retries, not even after a
    new login stored a fresh refresh token.
  */
  lemma StuckForever(c: Client, steps: seq<Step>)
    requires Inv(c) && c.slot.SettledNull?
    ensures var c' := Run(c, steps);
      && c'.slot.SettledNull? && c'.posts == c.posts
      && (forall id :: id in c'.calls && (id in c.calls ==> NoRetry(c.calls[id])) ==> c'.calls[id].fetches <= 1)
  {
    forall id | id in c.calls
      ensures !c.calls[id].phase.Waiting?
    {
      assert CallOk(c, c.calls[id]);
    }
    StuckCalls(c, steps, set id | id in c.calls && !NoRetry(c.calls[id]));
  }

  ghost predicate Quiet(c: Client, exempt: set<nat>) {
    forall id :: id in c.calls && id !in exempt ==> NoRetry(c.calls[id]) && !c.calls[id].phase.Waiting?
  }

  lemma StuckCallsNext(c: Client, step: Step, exempt: set<nat>)
    requires Dead(c) && Quiet(c, exempt)
    ensures Dead(Next(c, step)) && Quiet(Next(c, step), exempt) && Next(c, step).posts == c.posts
  {
  }

  lemma {:induction false} StuckCalls(c: Client, steps: seq<Step>, exempt: set<nat>)
    requires Dead(c) && Quiet(c, exempt)
    ensures Dead(Run(c, steps)) && Quiet(Run(c, steps), exempt) && Run(c, steps).posts == c.posts
    decreases |steps|
  {
    if steps != [] {
      StuckCallsNext(c, steps[0], exempt);
      StuckCalls(Next(c, steps[0]), steps[1..], exempt);
    }
  }

  // ----- Token rotation -----

  /** The server side of rotation: a successful reply and a login bring tokens never posted before. */
  predicate Rotating(c: Client, step: Step) {
    match step
    case Settle(_, Tokens(access, refresh)) => access != "" && refresh.Some? && refresh.value !in c.posts
    case Login(_, _, refresh) => refresh !in c.posts
    case _ => true
  }

  ghost predicate AlwaysRotating(c: Client, steps: seq<Step>)
    decreases |steps|
  {
    steps == [] || (Rotating(c, steps[0]) && AlwaysRotating(Next(c, steps[0]), steps[1..]))
  }

  ghost predicate Distinct(posts: seq<string>) {
    forall i, j :: 0 <= i < j < |posts| ==> posts[i] != posts[j]
  }

  ghost predicate TokenInv(c: Client) {
    && Distinct(c.posts)
    && (c.store.refresh != "" ==> c.store.user.Some?)
    && (c.slot.Empty? && c.store.refresh != "" ==> c.store.refresh !in c.posts)
    && (forall f :: f in c.flights ==> c.flights[f].user.Some?)
  }

  lemma TokenNext(c: Client, step: Step)
    requires Inv(c) && TokenInv(c) && Rotating(c, step)
    ensures TokenInv(Next(c, step))
  {
  }

  lemma {:induction false} TokenRun(c: Client, steps: seq<Step>)
    requires Inv(c) && TokenInv(c) && AlwaysRotating(c, steps)
    ensures TokenInv(Run(c, steps))
    decreases |steps|
  {
    if steps != [] {
      TokenNext(c, steps[0]);
      InvNext(c, steps[0]);
      TokenRun(Next(c, steps[0]), steps[1..]);
    }
  }

  /** Under rotation, and with a user whenever there is a token, no refresh token is posted twice. */
  lemma NoTokenPostedTwice(c: Client, steps: seq<Step>)
    requires Start(c) && (c.store.refresh != "" ==> c.store.user.Some?)
    requires AlwaysRotating(c, steps)
    ensures Distinct(Run(c, steps).posts)
  {
    TokenRun(c, steps);
  }

  function TwoCalls(access: string, rotated: string): seq<Step> {
    [Open(0, true), Answer(0, true), Settle(0, Tokens(access, Some(rotated))), Open(1, true), Answer(1, true)]
  }

  /** Without a stored user the server rotates in vain: the next 401 posts the used token again. */
  lemma MissingUserRepeatsToken(token: string, stored: string, access: string, rotated: string)
    requires token != "" && access != "" && rotated != token
    ensures var c := Client(Store(None, stored, token), Empty, map[], map[], []);
      AlwaysRotating(c, TwoCalls(access, rotated)) && Run(c, TwoCalls(access, rotated)).posts == [token, token]
  {
    var c := Client(Store(None, stored, token), Empty, map[], map[], []);
    var steps := TwoCalls(access, rotated);
    var c1 := Next(c, steps[0]);
    var c2 := Next(c1, steps[1]);
    var c3 := Next(c2, steps[2]);
    assert c3.slot == Empty && c3.store == c.store && c3.posts == [token] && c3.flights == map[] && 1 !in c3.calls;
    var c4 := Next(c3, steps[3]);
    var c5 := Next(c4, steps[4]);
    assert steps[3..][1..] == steps[4..] && steps[2..][1..] == steps[3..] && steps[1..][1..] == steps[2..];
    assert Run(c4, steps[4..]) == c5 && AlwaysRotating(c4, steps[4..]);
    assert Run(c3, steps[3..]) == c5 && AlwaysRotating(c3, steps[3..]);
    assert Run(c2, steps[2..]) == c5 && AlwaysRotating(c2, steps[2..]);
    assert Run(c1, steps[1..]) == c5 && AlwaysRotating(c1, steps[1..]);
  }

  /** So rotation keeps every post distinct, in every run of a page, if and only if a persisted token comes with its user. */
  lemma PostsDistinctIffUserKnown(c: Client)
    requires Start(c)
    ensures (forall steps :: AlwaysRotating(c, steps) ==> Distinct(Run(c, steps).posts)) <==> c.store.refresh == "" || c.store.user.Some?
  {
    if c.store.refresh == "" || c.store.user.Some? {
      forall steps | AlwaysRotating(c, steps)
        ensures Distinct(Run(c, steps).posts)
      {
        NoTokenPostedTwice(c, steps);
      }
    } else {
      var token := c.store.refresh;
      var rotated := token + "'";
      assert |rotated| == |token| + 1;
      MissingUserRepeatsToken(token, c.store.access, "access", rotated);
      assert c == Client(Store(None, c.store.access, token), Empty, map[], map[], []);
      var posts := Run(c, TwoCalls("access", rotated)).posts;
      assert posts[0] == posts[1];
    }
  }

  // ----- Logging out -----

  ghost predicate NoLogin(steps: seq<Step>) {
    forall step :: step in steps ==> !step.Login?
  }

  /** Nothing in the store, and no refresh in flight that would put something there. */
  ghost predicate LoggedOut(c: Client) {
    c.store == CLEARED && forall flight :: flight in c.flights ==> c.flights[flight].user.None?
  }

  lemma LoggedOutNext(c: Client, step: Step)
    requires LoggedOut(c) && !step.Login?
    ensures LoggedOut(Next(c, step))
  {
  }

  lemma {:induction false} LoggedOutRun(c: Client, steps: seq<Step>)
    requires LoggedOut(c) && NoLogin(steps)
    ensures LoggedOut(Run(c, steps))
    decreases |steps|
  {
    if steps != [] {
      assert steps[0] in steps;
      LoggedOutNext(c, steps[0]);
      assert forall step :: step in steps[1..] ==> step in steps;
      LoggedOutRun(Next(c, steps[0]), steps[1..]);
    }
  }

  /**
    A logout lasts until the next login, in every continuation, if and only if no
    refresh that captured a user is in flight: its reply stores that user again.
  */
  lemma LogoutLastsIffNoRefresh(c: Client)
    ensures (forall steps :: NoLogin(steps) ==> Run(Next(c, Logout), steps).store == CLEARED)
       <==> (forall flight :: flight in c.flights ==> c.flights[flight].user.None?)
  {
    var c' := Next(c, Logout);
    if flight :| flight in c.flights && c.flights[flight].user.Some? {
      var steps := [Settle(flight, Tokens("access", None))];
      assert Run(c', steps) == Next(c', steps[0]);
      assert NoLogin(steps) && Run(c', steps).store.access == "access";
    } else {
      forall steps | NoLogin(steps)
        ensures Run(c', steps).store == CLEARED
      {
        LoggedOutRun(c', steps);
      }
    }
  }

  /** A refresh that is refused or fails logs out, and no continuation without a login stores anything again. */
  lemma RefusalLogsOut(c: Client, flight: nat, reply: Reply, steps: seq<Step>)
    requires Inv(c) && flight in c.flights && !reply.Tokens? && NoLogin(steps)
    ensures Run(Next(c, Settle(flight, reply)), steps).store == Store(None, "", "")
  {
    LoggedOutRun(Next(c, Settle(flight, reply)), steps);
  }

  /** After a login the next 401 on an empty slot refreshes with the token that was stored, for the user who logged in. */
  lemma LoginIsUsed(c: Client, user: string, access: string, refresh: string, id: nat)
    requires c.slot == Empty && refresh != "" && id !in c.calls
    ensures var c' := Next(Next(Next(c, Login(user, access, refresh)), Open(id, true)), Answer(id, true));
      && c'.posts == c.posts + [refresh] && c'.slot == Pending(|c.posts|)
      && c'.flights[|c.posts|] == Flight(refresh, Some(user)) && c'.store == Store(Some(user), access, refresh)
  {
  }

  // ----- The module as written -----

  predicate OthersAlone(was: map<nat, Call>, calls: map<nat, Call>, id: nat) {
    forall other :: other in was && other in calls && other != id ==> calls[other] == was[other]
  }

  /** Every call that waited for the refresh goes on with `token`; all others are where they were. */
  predicate Woken(was: map<nat, Call>, calls: map<nat, Call>, flight: nat, token: string) {
    && calls.Keys == was.Keys
    && forall id :: id in was ==>
         calls[id] == if was[id].phase == Waiting(flight) then Call(was[id].auth, Resumable(token), was[id].fetches) else was[id]
  }

  class AuthFetch {
    var store: Store
    var refreshing: Slot
    var flights: map<nat, Flight>
    var calls: map<nat, Call>
    var posts: seq<string>

    function View(): Client
      reads this
    {
      Client(store, refreshing, flights, calls, posts)
    }

    constructor (store: Store)
      ensures View() == Client(store, Empty, map[], map[], []) && Start(View())
    {
      this.store := store;
      this.refreshing := Empty;
      this.flights := map[];
      this.calls := map[];
      this.posts := [];
    }

    /** refreshAccessToken for the call `id`, up to its first await. */
    method RefreshAccessToken(id: nat)
      requires id in calls
      modifies this
      ensures View() == EnterRefresh(old(View()), id)
      ensures store == old(store) && calls.Keys == old(calls).Keys && OthersAlone(old(calls), calls, id)
      ensures calls[id].auth == old(calls)[id].auth && calls[id].fetches == old(calls)[id].fetches
      ensures old(refreshing) == Empty && store.refresh != "" ==>
        && posts == old(posts) + [store.refresh] && refreshing == Pending(|old(posts)|)
        && flights == old(flights)[|old(posts)| := Flight(store.refresh, store.user)] && calls[id].phase == Waiting(|old(posts)|)
      ensures old(refreshing) == Empty && store.refresh == "" ==>
        posts == old(posts) && refreshing == SettledNull && flights == old(flights) && calls[id].phase == Resumable("")
      ensures old(refreshing) != Empty ==>
        && posts == old(posts) && refreshing == old(refreshing) && flights == old(flights)
        && calls[id].phase == if refreshing.Pending? then Waiting(refreshing.flight) else Resumable("")
    {
      var call := calls[id];
      if refreshing.Pending? {
        calls := calls[id := call.(phase := Waiting(refreshing.flight))];
        return;
      }
      if refreshing.SettledNull? {
        calls := calls[id := call.(phase := Resumable(""))];
        return;
      }
      var refreshToken, user := store.refresh, store.user;
      if refreshToken == "" {
        refreshing := SettledNull;
        calls := calls[id := call.(phase := Resumable(""))];
        return;
      }
      var flight := |posts|;
      posts := posts + [refreshToken];
      flights := flights[flight := Flight(refreshToken, user)];
      refreshing := Pending(flight);
      calls := calls[id := call.(phase := Waiting(flight))];
    }

    /** authFetch when its first response arrives. */
    method OnFirstResponse(id: nat, unauthorized: bool)
      requires id in calls && calls[id].phase.First?
      modifies this
      ensures View() == Next(old(View()), Answer(id, unauthorized))
      ensures !(unauthorized && old(calls)[id].auth) ==>
        View() == old(View()).(calls := old(calls)[id := Call(old(calls)[id].auth, Done, old(calls)[id].fetches)])
      ensures unauthorized && old(calls)[id].auth ==> calls[id].phase.Waiting? || calls[id].phase == Resumable("")
    {
      if unauthorized && calls[id].auth {
        RefreshAccessToken(id);
      } else {
        calls := calls[id := calls[id].(phase := Done)];
      }
    }

    /** The rest of the refresh: the answer, the catch block and the finally block. */
    method OnRefreshReply(flight: nat, reply: Reply)
      requires flight in flights
      modifies this
      ensures View() == Next(old(View()), Settle(flight, reply))
      ensures refreshing == Empty && flights == old(flights) - {flight} && posts == old(posts)
      ensures reply == Refused || reply == Failed ==> store == Store(None, "", "") && Woken(old(calls), calls, flight, "")
      ensures reply.Tokens? && old(flights)[flight].user.Some? && reply.access != "" ==>
        && store == Store(old(flights)[flight].user, reply.access, if reply.refresh.Some? then reply.refresh.value else old(flights)[flight].token)
        && Woken(old(calls), calls, flight, reply.access)
      ensures reply.Tokens? && (old(flights)[flight].user.None? || reply.access == "") ==>
        store == old(store) && Woken(old(calls), calls, flight, "")
    {
      var f := flights[flight];
      var result := "";
      match reply {
        case Refused =>
          store := CLEARED;
        case Failed =>
          store := CLEARED;
        case Tokens(access, refresh) =>
          var newRefresh := if refresh.Some? then refresh.value else f.token;
          if f.user.Some? && access != "" {
            store := Store(f.user, access, newRefresh);
            result := access;
          }
      }
      refreshing := Empty;
      flights := flights - {flight};
      calls := Wake(calls, flight, result);
    }

    /** authFetch after its await on the refresh: retry with the token, or give the first response back. */
    method OnRefreshed(id: nat)
      requires id in calls && calls[id].phase.Resumable?
      modifies this
      ensures View() == Next(old(View()), Resume(id))
      ensures var call := old(calls)[id];
        View() == old(View()).(calls := old(calls)[id :=
          if call.phase.token != "" then Call(call.auth, Second, call.fetches + 1) else Call(call.auth, Done, call.fetches)])
    {
      var call := calls[id];
      if call.phase.token != "" {
        calls := calls[id := call.(phase := Second, fetches := call.fetches + 1)];
      } else {
        calls := calls[id := call.(phase := Done)];
      }
    }
  }
}
