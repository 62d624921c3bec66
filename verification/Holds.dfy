/**
 Reservation holds and desk decisions (apps/api/src/tasks/tasks.service.ts, and the reading
 of a provider's claim in packages/agent-core/src/providers.ts). The stretches between
 awaits are events; clicks, provider answers, decisions and searches come in any order.
 Offers are known by their row number.
 */
module Holds {
  import opened Wrappers
  import opened Text

  // ---------------------------------------------------------------------------
  // A provider's claim, read strictly
  // ---------------------------------------------------------------------------

  /** What came as a hold: nothing, or an object with these fields; anything else is Vague. */
  datatype RawHold = Nothing | Vague | Claim(confirmed: bool, ref: string, expiresAt: Option<string>)

  datatype Hold = Hold(confirmed: bool, ref: string)

  /** `confirmed: true` with a reference of 1 to 120 characters, and an expiry that is absent or 1 to 64. */
  function ReadHold(raw: RawHold): (hold: Hold)
    ensures hold.confirmed <==> (
      && raw.Claim? && raw.confirmed && 1 <= |Trim(raw.ref)| <= 120
      && (raw.expiresAt == None || 1 <= |Trim(raw.expiresAt.value)| <= 64))
    ensures hold.ref == if hold.confirmed then Trim(raw.ref) else ""
  {
    if raw.Claim? && raw.confirmed && 1 <= |Trim(raw.ref)| <= 120
       && (raw.expiresAt.Some? ==> 1 <= |Trim(raw.expiresAt.value)| <= 64)
    then Hold(true, Trim(raw.ref))
    else Hold(false, "")
  }

  // ---------------------------------------------------------------------------
  // The protocol
  // ---------------------------------------------------------------------------

  datatype Status = Working | Awaiting | Completed | Accepted | Rejected

  datatype Decision = Complete | No | StillWorking

  datatype Offer = Offer(task: nat, retrievedAt: int, createdAt: int, hold: Hold)

  /** A request to the provider: sent, answered, and its promise settled. */
  datatype Stage = Sent | Answered | Settled

  datatype Request = Request(task: nat, offer: nat, stage: Stage)

  /** Desks and offers, the chat of every desk there has been, and the service's own tables. */
  datatype State = State(
    tasks: map<nat, Status>, chats: map<nat, nat>, offers: map<nat, Offer>, next: nat,
    holdRequests: map<nat, nat>, desks: set<nat>, requests: seq<Request>, finishing: multiset<nat>)

  const Initial := State(map[], map[], map[], 0, map[], {}, [], multiset{})

  const MAX_STORED_OFFERS_PER_TASK: nat := 24

  /** An offer as a search returns it. */
  datatype Found = Found(retrievedAt: int, rawHold: RawHold)

  datatype Event =
    | OpenTask(task: nat, chat: nat)
    | DeleteChat(chat: nat)
    | Click(task: nat, offer: nat)
    | Answer(request: nat, answer: Option<RawHold>)
    | Settle(request: nat)
    | Decide(task: nat, decision: Decision)
    | BeginFinish(task: nat)
    | Store(task: nat, found: seq<Found>, now: int)
    | EndFinish(task: nat, handedOff: bool)

  /** What a click is answered with. */
  datatype Clicked = NotFound | AlreadyConfirmed | Shares(request: nat) | Conflict | Asks

  function ClickOutcome(s: State, task: nat, offer: nat): Clicked {
    if task !in s.tasks || offer !in s.offers || s.offers[offer].task != task then NotFound
    else if s.offers[offer].hold.confirmed then AlreadyConfirmed
    else if offer in s.holdRequests then Shares(s.holdRequests[offer])
    else if task in s.desks then Conflict
    else Asks
  }

  /** The update that only takes an offer from none to confirmed. */
  function Confirm(s: State, r: Request, hold: Hold): State {
    if hold.confirmed && hold.ref != "" && r.offer in s.offers && s.offers[r.offer].task == r.task
       && !s.offers[r.offer].hold.confirmed
    then s.(offers := s.offers[r.offer := s.offers[r.offer].(hold := hold)])
    else s
  }

  function Add(offers: map<nat, Offer>, next: nat, task: nat, found: seq<Found>, now: int): map<nat, Offer> {
    if found == [] then offers
    else
      Add(offers, next, task, found[..|found| - 1], now)
        [next + |found| - 1 := Offer(task, found[|found| - 1].retrievedAt, now, ReadHold(found[|found| - 1].rawHold))]
  }

  /** The offers of a desk that no provider holds. */
  function Free(offers: map<nat, Offer>, task: nat): set<nat> {
    set o | o in offers && offers[o].task == task && !offers[o].hold.confirmed
  }

  /** Retrieved later; then stored later; then the later row. */
  predicate Newer(offers: map<nat, Offer>, a: nat, b: nat)
    requires a in offers && b in offers
  {
    || offers[a].retrievedAt > offers[b].retrievedAt
    || (offers[a].retrievedAt == offers[b].retrievedAt
        && (offers[a].createdAt > offers[b].createdAt || (offers[a].createdAt == offers[b].createdAt && a > b)))
  }

  function NewerFree(offers: map<nat, Offer>, task: nat, o: nat): set<nat>
    requires o in offers
  {
    set p | p in Free(offers, task) && Newer(offers, p, o)
  }

  /** Delete the desk's free offers that are not among its newest. */
  function Prune(offers: map<nat, Offer>, task: nat): map<nat, Offer> {
    map o | o in offers && (o in Free(offers, task) ==> |NewerFree(offers, task, o)| < MAX_STORED_OFFERS_PER_TASK) ::
      offers[o]
  }

  function Clear(s: State, r: nat): State
    requires r < |s.requests|
  {
    var q := s.requests[r];
    s.(requests := s.requests[r := q.(stage := Settled)],
       holdRequests := s.holdRequests - {q.offer}, desks := s.desks - {q.task})
  }

  function StatusOf(decision: Decision): Status {
    match decision
    case Complete => Accepted
    case No => Rejected
    case StillWorking => Awaiting
  }

  function Decided(s: State, task: nat, decision: Decision): State {
    if task !in s.tasks || s.tasks[task] !in {Awaiting, Completed} then s
    else if decision == StillWorking && task in s.desks then s
    else s.(tasks := s.tasks[task := StatusOf(decision)])
  }

  function Stored(s: State, task: nat, found: seq<Found>, now: int): State {
    s.(offers := Prune(Add(s.offers, s.next, task, found, now), task), next := s.next + |found|)
  }

  predicate InChat(chats: map<nat, nat>, task: nat, chat: nat) {
    task in chats && chats[task] == chat
  }

  /** Deleting a chat: the database drops its desks and their offers, held or not. */
  function WithoutChat(s: State, chat: nat): State {
    s.(tasks := map t | t in s.tasks && !InChat(s.chats, t, chat) :: s.tasks[t],
       offers := map o | o in s.offers && !InChat(s.chats, s.offers[o].task, chat) :: s.offers[o])
  }

  /** One step. What cannot happen in a state leaves it alone. */
  function Step(s: State, e: Event): State {
    match e
    case OpenTask(task, chat) =>
      if task in s.chats then s else s.(tasks := s.tasks[task := Working], chats := s.chats[task := chat])
    case DeleteChat(chat) => WithoutChat(s, chat)
    case Click(task, offer) =>
      if ClickOutcome(s, task, offer).Asks? then
        s.(requests := s.requests + [Request(task, offer, Sent)],
           holdRequests := s.holdRequests[offer := |s.requests|], desks := s.desks + {task})
      else s
    case Answer(r, answer) =>
      if r >= |s.requests| || !s.requests[r].stage.Sent? then s
      else
        var heard := if answer.Some? then Confirm(s, s.requests[r], ReadHold(answer.value)) else s;
        heard.(requests := s.requests[r := s.requests[r].(stage := Answered)])
    case Settle(r) => if r >= |s.requests| || !s.requests[r].stage.Answered? then s else Clear(s, r)
    case Decide(task, decision) => Decided(s, task, decision)
    case BeginFinish(task) =>
      if task in s.tasks && s.tasks[task].Working? then s.(finishing := s.finishing + multiset{task}) else s
    case Store(task, found, now) =>
      if task !in s.finishing || task !in s.tasks || found == [] then s else Stored(s, task, found, now)
    case EndFinish(task, handedOff) =>
      if task !in s.finishing then s
      else if task !in s.tasks then s.(finishing := s.finishing - multiset{task})
      else s.(tasks := s.tasks[task := if handedOff then Awaiting else Completed],
        finishing := s.finishing - multiset{task})
  }

  function Run(events: seq<Event>): State {
    if events == [] then Initial else Step(Run(events[..|events| - 1]), events[|events| - 1])
  }

  lemma RunGoesOn(events: seq<Event>, e: Event)
    ensures Run([]) == State(map[], map[], map[], 0, map[], {}, [], multiset{})
    ensures Run(events + [e]) == Step(Run(events), e)
  {
    hide Step;
    assert (events + [e])[..|events|] == events;
  }

  // ---------------------------------------------------------------------------
  // What every run keeps
  // ---------------------------------------------------------------------------

  ghost predicate Open(s: State, r: nat) {
    r < |s.requests| && !s.requests[r].stage.Settled?
  }

  /** The two tables describe the requests that are open, and there is at most one for a desk. */
  ghost predicate TablesAgree(s: State) {
    && (forall o :: o in s.holdRequests ==> Open(s, s.holdRequests[o]) && s.requests[s.holdRequests[o]].offer == o)
    && (forall r: nat :: Open(s, r) ==>
      s.requests[r].offer in s.holdRequests && s.holdRequests[s.requests[r].offer] == r)
    && (forall r: nat :: Open(s, r) ==> s.requests[r].task in s.desks)
    && (forall r: nat, q: nat :: Open(s, r) && Open(s, q) && s.requests[r].task == s.requests[q].task ==> r == q)
  }

  ghost predicate Busy(s: State, task: nat) {
    exists r: nat :: Open(s, r) && s.requests[r].task == task
  }

  /** No desk stays locked without an open request. */
  ghost predicate LocksAreHeld(s: State) {
    forall t :: t in s.desks ==> Busy(s, t)
  }

  ghost predicate RowsAreSound(s: State) {
    && (forall t :: t in s.tasks ==> t in s.chats)
    && (forall o :: o in s.offers ==> (
          o < s.next && s.offers[o].task in s.chats && (s.offers[o].hold.confirmed ==> s.offers[o].hold.ref != "")))
    && (forall r :: 0 <= r < |s.requests| ==> s.requests[r].offer < s.next)
    && (forall r :: 0 <= r < |s.requests| && s.requests[r].offer in s.offers ==> (
          && s.offers[s.requests[r].offer].task == s.requests[r].task
          && (s.requests[r].stage.Sent? ==> !s.offers[s.requests[r].offer].hold.confirmed)))
  }

  ghost predicate Orderly(s: State) {
    TablesAgree(s) && LocksAreHeld(s) && RowsAreSound(s)
  }

  lemma {:induction false} AddedRows(offers: map<nat, Offer>, next: nat, task: nat, found: seq<Found>, now: int)
    requires forall o :: o in offers ==> o < next
    ensures forall o :: o in Add(offers, next, task, found, now) ==> o < next + |found|
    ensures forall o :: o in offers ==>
            o in Add(offers, next, task, found, now) && Add(offers, next, task, found, now)[o] == offers[o]
    ensures forall o :: o in Add(offers, next, task, found, now) && o !in offers ==>
      next <= o && Add(offers, next, task, found, now)[o].task == task
        && (var hold := Add(offers, next, task, found, now)[o].hold; hold.confirmed ==> hold.ref != "")
  {
    if found != [] {
      AddedRows(offers, next, task, found[..|found| - 1], now);
    }
  }

  /** Every offer found has a new row of its own, with its hold read strictly. */
  lemma {:induction false} StoredAsFound(offers: map<nat, Offer>, next: nat, task: nat, found: seq<Found>, now: int,
                                         i: nat)
    requires i < |found|
    ensures next + i in Add(offers, next, task, found, now)
    ensures Add(offers, next, task, found, now)[next + i]
            == Offer(task, found[i].retrievedAt, now, ReadHold(found[i].rawHold))
  {
    hide ReadHold;
    if i < |found| - 1 {
      StoredAsFound(offers, next, task, found[..|found| - 1], now, i);
    }
  }

  lemma StoreKeepsRows(s: State, task: nat, found: seq<Found>, now: int)
    requires RowsAreSound(s)
    ensures RowsAreSound(Step(s, Store(task, found, now)))
  {
    hide ReadHold;
    AddedRows(s.offers, s.next, task, found, now);
  }

  lemma AnswerKeepsRows(s: State, r: nat, answer: Option<RawHold>)
    requires Orderly(s)
    ensures RowsAreSound(Step(s, Answer(r, answer)))
  {
    hide ReadHold;
    if r < |s.requests| && s.requests[r].stage.Sent? {
      assert Open(s, r);
      var t := Step(s, Answer(r, answer));
      forall q | 0 <= q < |t.requests| && t.requests[q].offer in t.offers
        ensures t.offers[t.requests[q].offer].task == t.requests[q].task
        ensures t.requests[q].stage.Sent? ==> !t.offers[t.requests[q].offer].hold.confirmed
      {
        if t.requests[q].stage.Sent? {
          assert Open(s, q) && q != r;
        }
      }
    }
  }

  /** Requests that stay open, and the same tables. */
  lemma SameTables(s: State, t: State)
    requires TablesAgree(s) && LocksAreHeld(s)
    requires t.holdRequests == s.holdRequests && t.desks == s.desks && |t.requests| == |s.requests|
    requires forall r :: 0 <= r < |s.requests| ==>
      s.requests[r].(stage := Sent) == t.requests[r].(stage := Sent)
        && s.requests[r].stage.Settled? == t.requests[r].stage.Settled?
    ensures TablesAgree(t) && LocksAreHeld(t)
  {
    assert forall r: nat :: r < |s.requests| ==>
      s.requests[r].task == t.requests[r].task && s.requests[r].offer == t.requests[r].offer;
    assert forall r: nat :: Open(t, r) <==> Open(s, r);
    forall d | d in t.desks ensures Busy(t, d) {
      assert Busy(s, d);
      var r: nat :| Open(s, r) && s.requests[r].task == d;
      assert Open(t, r) && t.requests[r].task == d;
    }
  }

  lemma ClickKeepsTables(s: State, task: nat, offer: nat)
    requires TablesAgree(s) && LocksAreHeld(s) && ClickOutcome(s, task, offer).Asks?
    ensures TablesAgree(Step(s, Click(task, offer)))
  {
    var t := Step(s, Click(task, offer));
    var asked: nat := |s.requests|;
    assert t.requests == s.requests + [Request(task, offer, Sent)];
    assert forall r: nat :: Open(t, r) <==> Open(s, r) || r == asked;
    assert forall r: nat :: Open(s, r) ==> s.requests[r].task != task && s.requests[r].offer != offer;
  }

  lemma ClickKeepsLocks(s: State, task: nat, offer: nat)
    requires LocksAreHeld(s) && ClickOutcome(s, task, offer).Asks?
    ensures LocksAreHeld(Step(s, Click(task, offer)))
  {
    var t := Step(s, Click(task, offer));
    var asked: nat := |s.requests|;
    forall d | d in t.desks ensures Busy(t, d) {
      if d == task {
        assert Open(t, asked) && t.requests[asked].task == d;
      } else {
        assert Busy(s, d);
        var r: nat :| Open(s, r) && s.requests[r].task == d;
        assert Open(t, r) && t.requests[r].task == d;
      }
    }
  }

  lemma ClickKeepsRows(s: State, task: nat, offer: nat)
    requires RowsAreSound(s)
    ensures RowsAreSound(Step(s, Click(task, offer)))
  {
  }

  lemma SettleKeeps(s: State, r: nat)
    requires TablesAgree(s) && LocksAreHeld(s) && r < |s.requests| && s.requests[r].stage.Answered?
    ensures TablesAgree(Step(s, Settle(r))) && LocksAreHeld(Step(s, Settle(r)))
  {
    var t := Clear(s, r);
    assert Open(s, r);
    assert forall q: nat :: Open(t, q) <==> Open(s, q) && q != r;
    assert forall q: nat :: Open(t, q) ==> t.requests[q] == s.requests[q];
    forall d | d in t.desks ensures Busy(t, d) {
      assert Busy(s, d);
      var q: nat :| Open(s, q) && s.requests[q].task == d;
      assert Open(t, q) && t.requests[q].task == d;
    }
  }

  lemma SettleKeepsRows(s: State, r: nat)
    requires RowsAreSound(s)
    ensures RowsAreSound(Step(s, Settle(r)))
  {
  }

  lemma ClickKeeps(s: State, task: nat, offer: nat)
    requires Orderly(s)
    ensures Orderly(Step(s, Click(task, offer)))
  {
    hide TablesAgree, LocksAreHeld, RowsAreSound;
    if ClickOutcome(s, task, offer).Asks? {
      ClickKeepsTables(s, task, offer);
      ClickKeepsLocks(s, task, offer);
    }
    ClickKeepsRows(s, task, offer);
  }

  lemma AnswerKeeps(s: State, r: nat, answer: Option<RawHold>)
    requires Orderly(s)
    ensures Orderly(Step(s, Answer(r, answer)))
  {
    hide TablesAgree, LocksAreHeld, RowsAreSound, ReadHold;
    AnswerKeepsRows(s, r, answer);
    SameTables(s, Step(s, Answer(r, answer)));
  }

  lemma SettlementKeeps(s: State, r: nat)
    requires Orderly(s)
    ensures Orderly(Step(s, Settle(r)))
  {
    hide TablesAgree, LocksAreHeld, RowsAreSound;
    if r < |s.requests| && s.requests[r].stage.Answered? {
      SettleKeeps(s, r);
    }
    SettleKeepsRows(s, r);
  }

  lemma StoreKeeps(s: State, task: nat, found: seq<Found>, now: int)
    requires Orderly(s)
    ensures Orderly(Step(s, Store(task, found, now)))
  {
    hide TablesAgree, LocksAreHeld, RowsAreSound, Prune, Add;
    StoreKeepsRows(s, task, found, now);
    SameTables(s, Step(s, Store(task, found, now)));
  }

  lemma DeletionKeepsRows(s: State, chat: nat)
    requires RowsAreSound(s)
    ensures RowsAreSound(WithoutChat(s, chat))
    ensures var t := WithoutChat(s, chat);
            t.requests == s.requests && t.holdRequests == s.holdRequests && t.desks == s.desks
  {
  }

  lemma DeletionKeeps(s: State, chat: nat)
    requires Orderly(s)
    ensures Orderly(Step(s, DeleteChat(chat)))
  {
    hide TablesAgree, LocksAreHeld, RowsAreSound, WithoutChat;
    DeletionKeepsRows(s, chat);
    SameTables(s, WithoutChat(s, chat));
  }

  /** Events that touch desks only, none of them unknown. */
  lemma SameRows(s: State, t: State)
    requires RowsAreSound(s) && t.offers == s.offers && t.requests == s.requests && t.next == s.next
    requires t.tasks.Keys <= t.chats.Keys && s.chats.Keys <= t.chats.Keys
    ensures RowsAreSound(t)
  {
  }

  lemma KnownDesks(s: State)
    requires RowsAreSound(s)
    ensures s.tasks.Keys <= s.chats.Keys
  {
  }

  lemma DeskEventsKeep(s: State, e: Event)
    requires Orderly(s) && (e.OpenTask? || e.Decide? || e.BeginFinish? || e.EndFinish?)
    ensures Orderly(Step(s, e))
  {
    hide TablesAgree, LocksAreHeld, RowsAreSound;
    KnownDesks(s);
    SameRows(s, Step(s, e));
    SameTables(s, Step(s, e));
  }

  lemma StepKeeps(s: State, e: Event)
    requires Orderly(s)
    ensures Orderly(Step(s, e))
  {
    hide Orderly, Step;
    match e {
      case Click(task, offer) => ClickKeeps(s, task, offer);
      case Answer(r, answer) => AnswerKeeps(s, r, answer);
      case Settle(r) => SettlementKeeps(s, r);
      case Store(task, found, now) => StoreKeeps(s, task, found, now);
      case DeleteChat(chat) => DeletionKeeps(s, chat);
      case _ => DeskEventsKeep(s, e);
    }
  }

  lemma {:induction false} EveryRunIsOrderly(events: seq<Event>)
    ensures Orderly(Run(events))
  {
    if events != [] {
      EveryRunIsOrderly(events[..|events| - 1]);
      StepKeeps(Run(events[..|events| - 1]), events[|events| - 1]);
    }
  }

  // ---------------------------------------------------------------------------
  // Holds
  // ---------------------------------------------------------------------------

  /** In every run a desk has at most one request with a provider. */
  lemma OneHoldInFlightPerDesk(events: seq<Event>, r: nat, q: nat)
    requires var s := Run(events);
             r < |s.requests| && q < |s.requests| && s.requests[r].stage.Sent? && s.requests[q].stage.Sent?
    ensures var s := Run(events); s.requests[r].task == s.requests[q].task ==> r == q
  {
    EveryRunIsOrderly(events);
    assert Open(Run(events), r) && Open(Run(events), q);
  }

  /**
   While a provider is being asked about a stored offer, a repeat click shares that request, and
   any other click on the desk is refused.
   */
  lemma RepeatClicksShare(events: seq<Event>, r: nat, offer: nat)
    requires var s := Run(events); r < |s.requests| && s.requests[r].stage.Sent?
    ensures
      var s, q := Run(events), Run(events).requests[r];
      && (q.offer in s.offers && q.task in s.tasks ==> ClickOutcome(s, q.task, q.offer) == Shares(r))
      && (offer != q.offer ==> !ClickOutcome(s, q.task, offer).Asks? && !ClickOutcome(s, q.task, offer).Shares?)
      && Step(s, Click(q.task, offer)) == s
  {
    EveryRunIsOrderly(events);
    var s, q := Run(events), Run(events).requests[r];
    assert Open(s, r);
    assert offer in s.holdRequests ==>
      Open(s, s.holdRequests[offer]) && s.requests[s.holdRequests[offer]].offer == offer;
    assert offer in s.holdRequests && offer in s.offers ==>
      s.offers[offer].task == s.requests[s.holdRequests[offer]].task;
  }

  /** Some attempt for this offer, or for another offer of its desk, has not settled. */
  ghost predicate OfferIsAsked(s: State, offer: nat, r: nat) {
    r < |s.requests| && s.requests[r].offer == offer && s.requests[r].stage != Settled
  }

  ghost predicate DeskIsAsked(s: State, task: nat) {
    exists r: nat :: r < |s.requests| && s.requests[r].task == task && s.requests[r].stage != Settled
  }

  lemma DesksAreAsked(s: State, task: nat)
    requires Orderly(s)
    ensures task in s.desks <==> DeskIsAsked(s, task)
  {
    if task in s.desks {
      assert Busy(s, task);
      var r: nat :| Open(s, r) && s.requests[r].task == task;
    }
    if DeskIsAsked(s, task) {
      var r: nat :| r < |s.requests| && s.requests[r].task == task && s.requests[r].stage != Settled;
      assert Open(s, r);
    }
  }

  /**
   In any run a click on an offer of its desk is answered from the row once that is held, shares an
   unsettled attempt for the offer, is refused while the desk asks for another, and asks otherwise.
   */
  lemma ClicksAreAnsweredExactly(events: seq<Event>, task: nat, offer: nat)
    ensures
      var s := Run(events);
      var clicked, t := ClickOutcome(s, task, offer), Run(events + [Click(task, offer)]);
      var known := task in s.tasks && offer in s.offers && s.offers[offer].task == task;
      && (clicked == NotFound <==> !known)
      && (clicked == AlreadyConfirmed <==> known && s.offers[offer].hold.confirmed)
      && (forall r: nat :: clicked == Shares(r) <==>
            known && !s.offers[offer].hold.confirmed && OfferIsAsked(s, offer, r))
      && (clicked == Asks <==> known && !s.offers[offer].hold.confirmed && !DeskIsAsked(s, task))
      && t.requests == (if clicked == Asks then s.requests + [Request(task, offer, Sent)] else s.requests)
      && t.offers == s.offers && t.tasks == s.tasks
  {
    EveryRunIsOrderly(events);
    RunGoesOn(events, Click(task, offer));
    var s := Run(events);
    hide Run;
    DesksAreAsked(s, task);
    if offer in s.holdRequests {
      assert Open(s, s.holdRequests[offer]);
    }
    forall r: nat | OfferIsAsked(s, offer, r) ensures Open(s, r) {
    }
  }

  /** In any run a decision on a desk that has a result takes effect, except that waiting needs no unsettled attempt. */
  lemma DecisionsTakeEffectExactly(events: seq<Event>, task: nat, decision: Decision)
    requires task in Run(events).tasks
    ensures
      var s, t := Run(events), Run(events + [Decide(task, decision)]);
      var ready := s.tasks[task] == Awaiting || s.tasks[task] == Completed;
      && t.tasks.Keys == s.tasks.Keys
      && (forall other :: other in s.tasks && other != task ==> t.tasks[other] == s.tasks[other])
      && (!ready ==> t.tasks[task] == s.tasks[task])
      && (ready && decision == Complete ==> t.tasks[task] == Accepted)
      && (ready && decision == No ==> t.tasks[task] == Rejected)
      && (ready && decision == StillWorking ==>
            t.tasks[task] == if DeskIsAsked(s, task) then s.tasks[task] else Awaiting)
      && t.offers == s.offers && t.requests == s.requests
  {
    EveryRunIsOrderly(events);
    RunGoesOn(events, Decide(task, decision));
    var s := Run(events);
    hide Run;
    DesksAreAsked(s, task);
    hide Orderly, DeskIsAsked;
  }

  /** The chat of an offer's desk is deleted by this event. */
  predicate Deletes(s: State, e: Event, task: nat) {
    e.DeleteChat? && InChat(s.chats, task, e.chat)
  }

  /** A confirmed hold is kept as it is by everything but the deletion of its chat. */
  lemma HoldsAreKept(s: State, e: Event, o: nat)
    requires Orderly(s) && o in s.offers && s.offers[o].hold.confirmed
    ensures o in Step(s, e).offers <==> !Deletes(s, e, s.offers[o].task)
    ensures o in Step(s, e).offers ==> Step(s, e).offers[o] == s.offers[o]
  {
    hide ReadHold;
    if e.Store? {
      AddedRows(s.offers, s.next, e.task, e.found, e.now);
    }
  }

  lemma RowsDoNotComeBack(s: State, e: Event, o: nat)
    requires Orderly(s) && o !in s.offers && o < s.next
    ensures o !in Step(s, e).offers && o < Step(s, e).next
  {
    hide ReadHold;
    if e.Store? {
      AddedRows(s.offers, s.next, e.task, e.found, e.now);
    }
  }

  lemma ChatsAreKept(s: State, e: Event, task: nat)
    requires task in s.chats
    ensures task in Step(s, e).chats && Step(s, e).chats[task] == s.chats[task]
  {
    hide Stored, Confirm, Clear, Decided;
    if e.Answer? && e.answer.Some? && e.request < |s.requests| {
      ConfirmKeepsTasks(s, s.requests[e.request], ReadHold(e.answer.value));
    } else if e.Settle? && e.request < |s.requests| {
      ClearKeepsTasks(s, e.request);
    } else if e.Store? {
      StoredKeepsTasks(s, e.task, e.found, e.now);
    } else if e.Decide? {
      DecidedKeepsChats(s, e.task, e.decision);
    }
  }

  lemma DecidedKeepsChats(s: State, task: nat, decision: Decision)
    ensures Decided(s, task, decision).chats == s.chats
  {
  }

  predicate Deleted(events: seq<Event>, chat: nat) {
    exists e :: e in events && e == DeleteChat(chat)
  }

  lemma DeletedMore(events: seq<Event>, last: Event, chat: nat)
    ensures Deleted(events + [last], chat) <==> Deleted(events, chat) || last == DeleteChat(chat)
  {
    assert last in events + [last];
    assert forall e :: e in events ==> e in events + [last];
  }

  /** A confirmed hold has a reference, and over any run it is kept unchanged exactly until its chat is deleted. */
  lemma {:induction false} ConfirmedForever(events: seq<Event>, more: seq<Event>, o: nat)
    requires o in Run(events).offers && Run(events).offers[o].hold.confirmed
    ensures Run(events).offers[o].hold.ref != ""
    ensures var s, t := Run(events), Run(events + more);
            var task := s.offers[o].task;
            && task in s.chats && task in t.chats && t.chats[task] == s.chats[task] && o < t.next
            && (o in t.offers <==> !Deleted(more, s.chats[task]))
            && (o in t.offers ==> t.offers[o] == s.offers[o])
  {
    hide Step;
    EveryRunIsOrderly(events);
    if more == [] {
      assert events + more == events;
    } else {
      var init, last := more[..|more| - 1], more[|more| - 1];
      ConfirmedForever(events, init, o);
      assert (events + more)[..|events + more| - 1] == events + init;
      assert more == init + [last];
      EveryRunIsOrderly(events + init);
      var task := Run(events).offers[o].task;
      var chat := Run(events).chats[task];
      DeletedMore(init, last, chat);
      ChatsAreKept(Run(events + init), last, task);
      if o in Run(events + init).offers {
        HoldsAreKept(Run(events + init), last, o);
        NextGrows(Run(events + init), last);
      } else {
        RowsDoNotComeBack(Run(events + init), last, o);
      }
    }
  }

  lemma NextGrows(s: State, e: Event)
    ensures s.next <= Step(s, e).next
  {
    hide ReadHold, Prune, Add;
  }

  /** An offer already stored becomes a hold only when the provider answers the request made for it. */
  lemma OnlyAnswersConfirm(s: State, e: Event, o: nat)
    requires Orderly(s) && o in s.offers && !s.offers[o].hold.confirmed
    requires o in Step(s, e).offers && Step(s, e).offers[o].hold.confirmed
    ensures e.Answer? && e.request < |s.requests| && s.requests[e.request].offer == o
            && s.requests[e.request].stage.Sent?
    ensures e.answer.Some? && Step(s, e).offers[o].hold == ReadHold(e.answer.value)
  {
    hide ReadHold;
    if e.Store? {
      AddedRows(s.offers, s.next, e.task, e.found, e.now);
    }
  }

  /** A provider's answer that is a booking: the reference it comes with. */
  ghost predicate Books(answer: Option<RawHold>, ref: string) {
    exists given: string, expiresAt: Option<string> ::
      && answer == Some(Claim(true, given, expiresAt))
      && ref == Trim(given) && 1 <= |ref| <= 120
      && (expiresAt == None || 1 <= |Trim(expiresAt.value)| <= 64)
  }

  lemma BooksExactly(answer: Option<RawHold>, ref: string)
    ensures Books(answer, ref) <==> answer.Some? && ReadHold(answer.value) == Hold(true, ref)
  {
    if answer.Some? && answer.value.Claim? && ReadHold(answer.value) == Hold(true, ref) {
      var Claim(confirmed, given, expiresAt) := answer.value;
      assert answer == Some(Claim(true, given, expiresAt)) && ref == Trim(given);
    }
  }

  /** What an answer makes of the offers, the one it was asked for being free and of its desk. */
  ghost predicate Decides(before: map<nat, Offer>, after: map<nat, Offer>, o: nat, answer: Option<RawHold>) {
    && after.Keys == before.Keys
    && (forall other :: other in before && other != o ==> after[other] == before[other])
    && (o in before ==>
          && before[o].hold == Hold(false, "")
          && (forall ref :: Books(answer, ref) ==> after[o] == before[o].(hold := Hold(true, ref)))
          && ((forall ref :: !Books(answer, ref)) ==> after[o] == before[o]))
  }

  lemma AnswerDecides(s: State, r: nat, answer: Option<RawHold>)
    requires r < |s.requests| && s.requests[r].stage.Sent?
    requires var q := s.requests[r];
             q.offer in s.offers ==> s.offers[q.offer].task == q.task && s.offers[q.offer].hold == Hold(false, "")
    ensures Decides(s.offers, Step(s, Answer(r, answer)).offers, s.requests[r].offer, answer)
  {
    if answer.Some? {
      var hold := ReadHold(answer.value);
      BooksExactly(answer, hold.ref);
      forall ref | Books(answer, ref) ensures hold == Hold(true, ref) {
        BooksExactly(answer, ref);
      }
      hide ReadHold, Books;
    }
  }

  lemma FreeAndOfItsDesk(s: State, r: nat)
    requires Orderly(s) && BlankUntilHeld(s.offers) && r < |s.requests| && s.requests[r].stage.Sent?
    ensures var q := s.requests[r];
            q.offer in s.offers ==> s.offers[q.offer].task == q.task && s.offers[q.offer].hold == Hold(false, "")
  {
  }

  /**
   In any run: a stored offer that a provider was asked for becomes a hold with exactly the
   reference of the booking answered, and stays as it was after any other answer. No answer
   touches another offer.
   */
  lemma AnswersDecideExactly(events: seq<Event>, r: nat, answer: Option<RawHold>)
    requires r < |Run(events).requests| && Run(events).requests[r].stage.Sent?
    ensures Decides(Run(events).offers, Run(events + [Answer(r, answer)]).offers, Run(events).requests[r].offer, answer)
  {
    EveryRunIsOrderly(events);
    EveryFreeOfferIsBlank(events);
    RunGoesOn(events, Answer(r, answer));
    hide Run, Step, Orderly, BlankUntilHeld, Decides;
    FreeAndOfItsDesk(Run(events), r);
    AnswerDecides(Run(events), r, answer);
  }

  ghost predicate BlankUntilHeld(offers: map<nat, Offer>) {
    forall o :: o in offers && !offers[o].hold.confirmed ==> offers[o].hold == Hold(false, "")
  }

  /** An offer without a confirmed hold has no reference. */
  lemma {:induction false} EveryFreeOfferIsBlank(events: seq<Event>)
    ensures BlankUntilHeld(Run(events).offers)
  {
    if events != [] {
      var init, e := events[..|events| - 1], events[|events| - 1];
      EveryFreeOfferIsBlank(init);
      StepKeepsBlanks(Run(init), e);
    }
  }

  lemma NoHoldIsBlank(raw: RawHold)
    ensures !ReadHold(raw).confirmed ==> ReadHold(raw) == Hold(false, "")
  {
  }

  lemma StepKeepsBlanks(s: State, e: Event)
    requires BlankUntilHeld(s.offers)
    ensures BlankUntilHeld(Step(s, e).offers)
  {
    hide Add, Free, NewerFree, ReadHold;
    if e.Store? {
      AddedBlanks(s.offers, s.next, e.task, e.found, e.now);
    }
  }

  lemma {:induction false} AddedBlanks(offers: map<nat, Offer>, next: nat, task: nat, found: seq<Found>, now: int)
    requires BlankUntilHeld(offers)
    ensures BlankUntilHeld(Add(offers, next, task, found, now))
  {
    hide ReadHold;
    if found != [] {
      AddedBlanks(offers, next, task, found[..|found| - 1], now);
      NoHoldIsBlank(found[|found| - 1].rawHold);
    }
  }

  /** A provider's confirmation is saved exactly when the offer is still stored. */
  lemma ConfirmationIsSaved(s: State, r: nat, raw: RawHold)
    requires Orderly(s) && r < |s.requests| && s.requests[r].stage.Sent? && ReadHold(raw).confirmed
    ensures var o, t := s.requests[r].offer, Step(s, Answer(r, Some(raw)));
            (o in t.offers && t.offers[o].hold == ReadHold(raw)) <==> o in s.offers
  {
    var q := s.requests[r];
    assert q.offer in s.offers ==> s.offers[q.offer].task == q.task && !s.offers[q.offer].hold.confirmed;
    assert |ReadHold(raw).ref| >= 1;
  }

  /** The traveler deletes the chat while the provider is being asked: its confirmation finds no offer. */
  lemma DeletionLosesAConfirmation(raw: RawHold)
    requires ReadHold(raw).confirmed
    ensures
      var searching := Step(Step(Initial, OpenTask(0, 7)), BeginFinish(0));
      var searched := Step(Step(searching, Store(0, [Found(0, Nothing)], 0)), EndFinish(0, false));
      var asked := Step(searched, Click(0, 0));
      var deleted := Step(asked, DeleteChat(7));
      && asked.requests == [Request(0, 0, Sent)] && 0 in asked.offers
      && deleted.requests == [Request(0, 0, Sent)]
      && Step(deleted, Answer(0, Some(raw))).offers == map[]
      && Step(asked, Answer(0, Some(raw))).offers == map[0 := Offer(0, 0, 0, ReadHold(raw))]
  {
    hide ReadHold, Prune, Add, Free;
    OneDeskSearched();
    NothingIsNoHold();
    var asked := SearchedDesk.(requests := [Request(0, 0, Sent)], holdRequests := map[0 := 0], desks := {0});
    assert Step(SearchedDesk, Click(0, 0)) == asked;
    assert WithoutChat(asked, 7) == asked.(tasks := map[], offers := map[]);
    assert ReadHold(raw).ref != "";
  }

  /** One desk of chat 7 whose search found one free offer. */
  const SearchedDesk := State(
    map[0 := Completed], map[0 := 7], map[0 := Offer(0, 0, 0, ReadHold(Nothing))], 1, map[], {}, [], multiset{})

  lemma OneDeskSearched()
    ensures var searching := Step(Step(Initial, OpenTask(0, 7)), BeginFinish(0));
            Step(Step(searching, Store(0, [Found(0, Nothing)], 0)), EndFinish(0, false)) == SearchedDesk
  {
    hide ReadHold, Prune, Add, Free;
    var working := Initial.(tasks := map[0 := Working], chats := map[0 := 7], finishing := multiset{0});
    assert Step(Step(Initial, OpenTask(0, 7)), BeginFinish(0)) == working;
    OneOfferIsStored(0);
    var stored := working.(offers := SearchedDesk.offers, next := 1);
    assert Step(working, Store(0, [Found(0, Nothing)], 0)) == stored;
    assert Step(stored, EndFinish(0, false)) == SearchedDesk;
  }

  lemma NothingIsNoHold()
    ensures !ReadHold(Nothing).confirmed
  {
  }

  lemma OneOfferIsStored(task: nat)
    ensures Prune(Add(map[], 0, task, [Found(0, Nothing)], 0), task) == map[0 := Offer(task, 0, 0, ReadHold(Nothing))]
  {
    hide ReadHold;
    var found := [Found(0, Nothing)];
    assert found[..0] == [];
    assert Add(map[], 0, task, [], 0) == map[];
    assert Add(map[], 0, task, found, 0) == map[0 := Offer(task, 0, 0, ReadHold(Nothing))];
    FirstSearchDropsNothing(map[], 0, task, found, 0);
  }

  // ---------------------------------------------------------------------------
  // Pruning
  // ---------------------------------------------------------------------------

  lemma SmallerSet(a: set<nat>, b: set<nat>)
    requires a <= b
    ensures |a| <= |b|
  {
    if a != b {
      assert b == a + (b - a);
    }
  }

  /** What is kept is newer than what is dropped; what is dropped has at least 24 newer. */
  lemma NewestAreKept(offers: map<nat, Offer>, task: nat, kept: nat, dropped: nat)
    requires kept in Free(Prune(offers, task), task)
    requires dropped in offers && dropped !in Prune(offers, task)
    ensures var k, d := offers[kept], offers[dropped];
            || k.retrievedAt > d.retrievedAt
            || (k.retrievedAt == d.retrievedAt && k.createdAt > d.createdAt)
            || (k.retrievedAt == d.retrievedAt && k.createdAt == d.createdAt && kept > dropped)
    ensures offers[dropped].task == task && !offers[dropped].hold.confirmed
    ensures |Free(Prune(offers, task), task)| == 24
  {
    if Newer(offers, dropped, kept) {
      SmallerSet(NewerFree(offers, task, dropped), NewerFree(offers, task, kept));
    }
    FreeOffersAreBounded(offers, task);
    EnoughAreKept(offers, task, dropped);
  }

  /** Dropping one offer means that 24 newer ones stay. */
  lemma EnoughAreKept(offers: map<nat, Offer>, task: nat, dropped: nat)
    requires dropped in offers && dropped !in Prune(offers, task)
    ensures |Free(Prune(offers, task), task)| >= 24
  {
    var newest := NewestOf(offers, NewerFree(offers, task, dropped), 24);
    forall o | o in newest ensures o in Free(Prune(offers, task), task) {
      forall p | p in NewerFree(offers, task, o) ensures p in newest - {o} {
      }
      SmallerSet(NewerFree(offers, task, o), newest - {o});
    }
    SmallerSet(newest, Free(Prune(offers, task), task));
  }

  /** The newest n of some offers: every other one of them is older than all of these. */
  lemma {:induction false} NewestOf(offers: map<nat, Offer>, some: set<nat>, n: nat) returns (newest: set<nat>)
    requires n <= |some| && forall o :: o in some ==> o in offers
    ensures newest <= some && |newest| == n
    ensures forall o, p :: o in newest && p in some && Newer(offers, p, o) ==> p in newest
    decreases |some|
  {
    if n == |some| {
      newest := some;
    } else {
      var oldest := OldestExists(offers, some);
      newest := NewestOf(offers, some - {oldest}, n);
      forall o, p | o in newest && p in some && Newer(offers, p, o) ensures p in newest {
        assert Newer(offers, o, oldest);
      }
    }
  }

  lemma {:induction false} OldestExists(offers: map<nat, Offer>, some: set<nat>) returns (oldest: nat)
    requires some != {} && forall o :: o in some ==> o in offers
    ensures oldest in some && forall o :: o in some && o != oldest ==> Newer(offers, o, oldest)
    decreases |some|
  {
    var first :| first in some;
    var rest := some - {first};
    oldest := first;
    if rest != {} {
      var other := OldestExists(offers, rest);
      oldest := if Newer(offers, first, other) then other else first;
    }
    forall o | o in some && o != oldest ensures Newer(offers, o, oldest) {
      assert o == first || o in rest;
    }
  }

  /** A desk keeps at most 24 free offers. */
  lemma FreeOffersAreBounded(offers: map<nat, Offer>, task: nat)
    ensures |Free(Prune(offers, task), task)| <= 24
    ensures forall o :: o in offers && (offers[o].task != task || offers[o].hold.confirmed) ==>
              o in Prune(offers, task) && Prune(offers, task)[o] == offers[o]
  {
    var kept := Free(Prune(offers, task), task);
    if kept != {} {
      var oldest := OldestExists(offers, kept);
      SmallerSet(kept - {oldest}, NewerFree(offers, task, oldest));
    }
  }

  lemma {:induction false} AddedAreFew(offers: map<nat, Offer>, next: nat, task: nat, found: seq<Found>, now: int)
    requires Free(offers, task) == {}
    ensures |Free(Add(offers, next, task, found, now), task)| <= |found|
  {
    if found != [] {
      var init := found[..|found| - 1];
      AddedAreFew(offers, next, task, init, now);
      SmallerSet(
        Free(Add(offers, next, task, found, now), task),
        Free(Add(offers, next, task, init, now), task) + {next + |found| - 1});
    }
  }

  /** The first search of a desk stores all of up to 24 offers: nothing is pruned. */
  lemma FirstSearchDropsNothing(offers: map<nat, Offer>, next: nat, task: nat, found: seq<Found>, now: int)
    requires Free(offers, task) == {} && |found| <= 24
    ensures Prune(Add(offers, next, task, found, now), task) == Add(offers, next, task, found, now)
  {
    hide Add;
    var all := Add(offers, next, task, found, now);
    AddedAreFew(offers, next, task, found, now);
    forall o | o in Free(all, task) ensures |NewerFree(all, task, o)| < MAX_STORED_OFFERS_PER_TASK {
      SmallerSet(NewerFree(all, task, o), Free(all, task) - {o});
    }
  }

  // ---------------------------------------------------------------------------
  // Decisions
  // ---------------------------------------------------------------------------

  predicate IsFinal(s: State, task: nat) {
    task in s.tasks && (s.tasks[task].Accepted? || s.tasks[task].Rejected?)
  }

  /**
   While its chat lives, a decision stands against everything exactly when no search of the desk is
   still finishing.
   */
  lemma DecisionStands(s: State, task: nat)
    requires Orderly(s) && IsFinal(s, task)
    ensures (forall e :: !Deletes(s, e, task) ==> task in Step(s, e).tasks && Step(s, e).tasks[task] == s.tasks[task])
       <==> task !in s.finishing
  {
    hide Step, Deletes, TablesAgree, LocksAreHeld;
    assert task in s.chats;
    hide RowsAreSound;
    if task !in s.finishing {
      forall e | !Deletes(s, e, task) ensures task in Step(s, e).tasks && Step(s, e).tasks[task] == s.tasks[task] {
        DecisionStandsAgainst(s, e, task);
      }
    } else {
      FinishingUndoes(s, task);
    }
  }

  lemma DecisionStandsAgainst(s: State, e: Event, task: nat)
    requires IsFinal(s, task) && task in s.chats && task !in s.finishing && !Deletes(s, e, task)
    ensures task in Step(s, e).tasks && Step(s, e).tasks[task] == s.tasks[task]
  {
    hide Stored, Confirm, Clear, ClickOutcome, ReadHold;
    if e.Answer? && e.answer.Some? && e.request < |s.requests| {
      ConfirmKeepsTasks(s, s.requests[e.request], ReadHold(e.answer.value));
    } else if e.Settle? && e.request < |s.requests| {
      ClearKeepsTasks(s, e.request);
    } else if e.Store? {
      StoredKeepsTasks(s, e.task, e.found, e.now);
    }
  }

  lemma FinishingUndoes(s: State, task: nat)
    requires IsFinal(s, task) && task in s.finishing
    ensures !Deletes(s, EndFinish(task, true), task) && Step(s, EndFinish(task, true)).tasks[task] == Awaiting
  {
  }

  /** Every search of a desk begins when none of it is under way, as it does when each desk is scheduled once. */
  ghost predicate OneAtATime(events: seq<Event>) {
    events == [] || (
      && OneAtATime(events[..|events| - 1])
      && (var e := events[|events| - 1]; e.BeginFinish? ==> e.task !in Run(events[..|events| - 1]).finishing))
  }

  ghost predicate WorksAlone(s: State, task: nat) {
    && (task in s.finishing ==> s.finishing[task] == 1 && (task in s.tasks ==> s.tasks[task].Working?))
    && (task in s.tasks || task in s.finishing ==> task in s.chats)
  }

  lemma StepWorksAlone(s: State, e: Event, task: nat)
    requires WorksAlone(s, task) && (e.BeginFinish? ==> e.task !in s.finishing)
    ensures WorksAlone(Step(s, e), task)
  {
    hide Stored, Confirm, Clear, ClickOutcome, ReadHold;
    if e.Answer? && e.answer.Some? && e.request < |s.requests| {
      ConfirmKeepsTasks(s, s.requests[e.request], ReadHold(e.answer.value));
    } else if e.Settle? && e.request < |s.requests| {
      ClearKeepsTasks(s, e.request);
    } else if e.Store? {
      StoredKeepsTasks(s, e.task, e.found, e.now);
    }
  }

  lemma ConfirmKeepsTasks(s: State, r: Request, hold: Hold)
    ensures Confirm(s, r, hold).tasks == s.tasks && Confirm(s, r, hold).finishing == s.finishing
            && Confirm(s, r, hold).chats == s.chats
  {
  }

  lemma ClearKeepsTasks(s: State, r: nat)
    requires r < |s.requests|
    ensures Clear(s, r).tasks == s.tasks && Clear(s, r).finishing == s.finishing && Clear(s, r).chats == s.chats
  {
  }

  lemma StoredKeepsTasks(s: State, task: nat, found: seq<Found>, now: int)
    ensures var t := Stored(s, task, found, now); t.tasks == s.tasks && t.finishing == s.finishing && t.chats == s.chats
  {
  }

  lemma {:induction false} FinishingDesksWork(events: seq<Event>, task: nat)
    requires OneAtATime(events)
    ensures WorksAlone(Run(events), task)
  {
    if events != [] {
      FinishingDesksWork(events[..|events| - 1], task);
      hide WorksAlone, Step;
      StepWorksAlone(Run(events[..|events| - 1]), events[|events| - 1], task);
    }
  }

  lemma {:induction false} OneAtATimeBefore(events: seq<Event>, more: seq<Event>)
    requires OneAtATime(events + more)
    ensures OneAtATime(events)
  {
    if more == [] {
      assert events + more == events;
    } else {
      assert (events + more)[..|events + more| - 1] == events + more[..|more| - 1];
      OneAtATimeBefore(events, more[..|more| - 1]);
    }
  }

  lemma DesksDoNotComeBack(s: State, e: Event, task: nat)
    requires task in s.chats && task !in s.tasks
    ensures task !in Step(s, e).tasks
  {
    hide Stored, Confirm, Clear, ClickOutcome, ReadHold;
    if e.Answer? && e.answer.Some? && e.request < |s.requests| {
      ConfirmKeepsTasks(s, s.requests[e.request], ReadHold(e.answer.value));
    } else if e.Settle? && e.request < |s.requests| {
      ClearKeepsTasks(s, e.request);
    } else if e.Store? {
      StoredKeepsTasks(s, e.task, e.found, e.now);
    }
  }

  lemma DeletionRemovesDesks(s: State, e: Event, task: nat)
    requires Deletes(s, e, task)
    ensures task !in Step(s, e).tasks
  {
  }

  /** Accepted and rejected desks never change status, over any run; only deleting their chat takes them away. */
  lemma {:induction false} DecisionsAreFinal(events: seq<Event>, more: seq<Event>, task: nat)
    requires OneAtATime(events + more) && IsFinal(Run(events), task)
    ensures var s, t := Run(events), Run(events + more);
            && task in s.chats && task in t.chats && t.chats[task] == s.chats[task]
            && (task in t.tasks <==> !Deleted(more, s.chats[task]))
            && (task in t.tasks ==> t.tasks[task] == s.tasks[task])
  {
    hide Step, WorksAlone, Deletes;
    OneAtATimeBefore(events, more);
    FinishingDesksWork(events, task);
    assert task in Run(events).chats by {
      WorkingAloneIsKnown(Run(events), task);
    }
    if more == [] {
      assert events + more == events;
    } else {
      var init, last := more[..|more| - 1], more[|more| - 1];
      assert (events + more)[..|events + more| - 1] == events + init;
      assert more == init + [last];
      DecisionsAreFinal(events, init, task);
      var now, chat := Run(events + init), Run(events).chats[task];
      DeletedMore(init, last, chat);
      ChatsAreKept(now, last, task);
      FinishingDesksWork(events + init, task);
      FinalStep(now, last, task, Run(events).tasks[task]);
    }
  }

  lemma WorkingAloneIsKnown(s: State, task: nat)
    requires WorksAlone(s, task) && task in s.tasks
    ensures task in s.chats
  {
  }

  lemma FinalStep(s: State, e: Event, task: nat, status: Status)
    requires WorksAlone(s, task) && task in s.chats && (status.Accepted? || status.Rejected?)
    requires task in s.tasks ==> s.tasks[task] == status
    ensures task in Step(s, e).tasks <==> task in s.tasks && e != DeleteChat(s.chats[task])
    ensures task in Step(s, e).tasks ==> Step(s, e).tasks[task] == status
  {
    hide Step;
    if task !in s.tasks {
      DesksDoNotComeBack(s, e, task);
    } else if Deletes(s, e, task) {
      DeletionRemovesDesks(s, e, task);
    } else {
      DecisionStandsAgainst(s, e, task);
    }
  }

  /** With two searches of one desk under way, the later one undoes an acceptance. */
  lemma SecondFinishUndoesADecision()
    ensures
      var twice := Step(Step(Step(Initial, OpenTask(0, 7)), BeginFinish(0)), BeginFinish(0));
      var accepted := Step(Step(twice, EndFinish(0, false)), Decide(0, Complete));
      accepted.tasks == map[0 := Accepted] && Step(accepted, EndFinish(0, false)).tasks == map[0 := Completed]
  {
    hide Prune, Add, Confirm, ClickOutcome;
    var working := Initial.(tasks := map[0 := Working], chats := map[0 := 7]);
    assert Step(Initial, OpenTask(0, 7)) == working;
    assert Step(Step(working, BeginFinish(0)), BeginFinish(0)) == working.(finishing := multiset{0, 0});
  }

  // ---------------------------------------------------------------------------
  // The service's tables
  // ---------------------------------------------------------------------------

  lemma StoringIs(s: State, task: nat, found: seq<Found>, now: int)
    requires task in s.finishing && task in s.tasks
    ensures Step(s, Store(task, found, now)) == if found == [] then s else Stored(s, task, found, now)
  {
  }

  class TasksService {
    var tasks: map<nat, Status>
    var chats: map<nat, nat>
    var offers: map<nat, Offer>
    var next: nat
    var holdRequests: map<nat, nat>
    var desks: set<nat>
    var requests: seq<Request>
    /** The searches under way. */
    ghost var finishing: multiset<nat>

    ghost function Now(): State
      reads this
    {
      State(tasks, chats, offers, next, holdRequests, desks, requests, finishing)
    }

    ghost predicate Valid()
      reads this
    {
      Orderly(Now())
    }

    constructor ()
      ensures Valid() && Now() == Initial
    {
      tasks, chats, offers, next := map[], map[], map[], 0;
      holdRequests, desks, requests, finishing := map[], {}, [], multiset{};
    }

    /** A desk is opened for a message of a chat. */
    method OpenDesk(task: nat, chat: nat)
      requires Valid() && task !in chats
      modifies this
      ensures Valid() && Now() == Step(old(Now()), OpenTask(task, chat))
      ensures tasks == old(tasks)[task := Working] && chats == old(chats)[task := chat]
    {
      StepKeeps(Now(), OpenTask(task, chat));
      hide Orderly;
      tasks := tasks[task := Working];
      chats := chats[task := chat];
    }

    /** A search of the desk begins, if the desk is still working. */
    method BeginSearch(task: nat) returns (begun: bool)
      requires Valid()
      modifies this
      ensures Valid() && Now() == Step(old(Now()), BeginFinish(task))
      ensures begun <==> task in tasks && tasks[task].Working?
      ensures finishing == if begun then old(finishing) + multiset{task} else old(finishing)
    {
      StepKeeps(Now(), BeginFinish(task));
      hide Orderly;
      begun := task in tasks && tasks[task].Working?;
      if begun {
        finishing := finishing + multiset{task};
      }
    }

    /** The search is over: the desk has its result, or waits for the traveler. */
    method EndSearch(task: nat, handedOff: bool)
      requires Valid() && task in finishing
      modifies this
      ensures Valid() && Now() == Step(old(Now()), EndFinish(task, handedOff))
      ensures task in old(tasks) ==> tasks == old(tasks)[task := if handedOff then Awaiting else Completed]
      ensures finishing == old(finishing) - multiset{task}
    {
      hide Orderly;
      StepKeeps(Now(), EndFinish(task, handedOff));
      if task in tasks {
        tasks := tasks[task := if handedOff then Awaiting else Completed];
      }
      finishing := finishing - multiset{task};
    }

    /** A chat is removed, and the database removes its desks and their offers with it. */
    method RemoveChat(chat: nat)
      requires Valid()
      modifies this
      ensures Valid() && Now() == Step(old(Now()), DeleteChat(chat))
      ensures forall t :: t in tasks <==> t in old(tasks) && chats[t] != chat
      ensures forall o :: o in offers <==> o in old(offers) && chats[old(offers)[o].task] != chat
      ensures requests == old(requests) && chats == old(chats)
    {
      StepKeeps(Now(), DeleteChat(chat));
      hide Orderly;
      offers := map o | o in offers && !InChat(chats, offers[o].task, chat) :: offers[o];
      tasks := map t | t in tasks && !InChat(chats, t, chat) :: tasks[t];
    }

    /** A click on "hold": everything up to the provider's answer. */
    method HoldOffer(task: nat, offer: nat) returns (clicked: Clicked)
      requires Valid()
      modifies this
      ensures Valid() && Now() == Step(old(Now()), Click(task, offer))
      ensures clicked == ClickOutcome(old(Now()), task, offer)
      ensures clicked.Shares? ==> Open(Now(), clicked.request) && requests[clicked.request].offer == offer
    {
      StepKeeps(Now(), Click(task, offer));
      assert forall o :: o in holdRequests ==> Open(Now(), holdRequests[o]) && requests[holdRequests[o]].offer == o;
      hide Orderly;
      if task !in tasks || offer !in offers || offers[offer].task != task {
        return NotFound;
      }
      if offers[offer].hold.confirmed {
        return AlreadyConfirmed;
      }
      if offer in holdRequests {
        return Shares(holdRequests[offer]);
      }
      if task in desks {
        return Conflict;
      }
      desks := desks + {task};
      holdRequests := holdRequests[offer := |requests|];
      requests := requests + [Request(task, offer, Sent)];
      clicked := Asks;
    }

    /** The provider answered, or the request failed. */
    method HearAnswer(r: nat, answer: Option<RawHold>)
      requires Valid() && r < |requests| && requests[r].stage.Sent?
      modifies this
      ensures Valid() && Now() == Step(old(Now()), Answer(r, answer))
    {
      StepKeeps(Now(), Answer(r, answer));
      hide Orderly;
      var q := requests[r];
      if answer.Some? {
        var hold := ReadHold(answer.value);
        if hold.confirmed && hold.ref != "" {
          if q.offer in offers && offers[q.offer].task == q.task && !offers[q.offer].hold.confirmed {
            offers := offers[q.offer := offers[q.offer].(hold := hold)];
          }
        }
      }
      requests := requests[r := q.(stage := Answered)];
    }

    /** The attempt settled: both tables forget it. */
    method Release(r: nat)
      requires Valid() && r < |requests| && requests[r].stage.Answered?
      modifies this
      ensures Valid() && Now() == Step(old(Now()), Settle(r))
      ensures requests[r].offer !in holdRequests && requests[r].task !in desks && requests[r].stage == Settled
    {
      StepKeeps(Now(), Settle(r));
      hide Orderly;
      holdRequests := holdRequests - {requests[r].offer};
      desks := desks - {requests[r].task};
      requests := requests[r := requests[r].(stage := Settled)];
    }

    method MakeDecision(task: nat, decision: Decision) returns (refused: bool)
      requires Valid() && task in tasks
      modifies this
      ensures Valid() && Now() == Step(old(Now()), Decide(task, decision))
      ensures refused <==> old(tasks)[task] !in {Awaiting, Completed} || (decision == StillWorking && task in desks)
      ensures !refused ==>
        tasks[task] == (if decision == Complete then Accepted else if decision == No then Rejected else Awaiting)
    {
      StepKeeps(Now(), Decide(task, decision));
      hide Orderly;
      if !tasks[task].Awaiting? && !tasks[task].Completed? {
        return true;
      }
      if decision.StillWorking? && task in desks {
        return true;
      }
      match decision {
        case Complete => tasks := tasks[task := Accepted];
        case No => tasks := tasks[task := Rejected];
        case StillWorking => tasks := tasks[task := Awaiting];
      }
      refused := false;
    }

    /** Store what a search found, then forget what is no longer among the newest. */
    method StoreOffers(task: nat, found: seq<Found>, now: int)
      requires Valid() && task in finishing && task in tasks
      modifies this
      ensures Valid() && Now() == Step(old(Now()), Store(task, found, now))
    {
      hide Orderly, Add, Prune, Step;
      StepKeeps(Now(), Store(task, found, now));
      StoringIs(Now(), task, found, now);
      if found != [] {
        InsertAll(task, found, now);
        offers := Prune(offers, task);
      }
    }

    method InsertAll(task: nat, found: seq<Found>, now: int)
      modifies this`offers, this`next
      ensures offers == Add(old(offers), old(next), task, found, now) && next == old(next) + |found|
    {
      hide ReadHold;
      assert found[..0] == [];
      for i := 0 to |found|
        invariant offers == Add(old(offers), old(next), task, found[..i], now) && next == old(next) + i
      {
        assert found[..i + 1][..i] == found[..i];
        offers := offers[next := Offer(task, found[i].retrievedAt, now, ReadHold(found[i].rawHold))];
        next := next + 1;
      }
      assert found[..|found|] == found;
    }
  }
}
