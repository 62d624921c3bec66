/**
 The browser worker's sessions (apps/browser-worker/src/engine.ts). Opening, closing and
 acting are cut into their synchronous stretches between awaits; what pages, timers and
 callers do is any sequence of these events. A session is known by the number of its `open`.
 */
module Engine {
  import opened Wrappers
  import opened Sequences

  datatype Limits = Limits(sessions: nat, actions: nat)

  const LIMITS := Limits(4, 20)

  /** What a learned procedure may hold. */
  datatype WorkflowStep =
    | NavigateStart | Look | FillOrigin | FillDestination | FillDepartureDate | FillReturnDate
    | FillCheckIn | FillCheckOut | FillTravelers | FillCurrency | FillLanguage | ClickSearch | Observe

  datatype Action = Navigate | Inspect | ReadPrice | Fill | Select | Click

  /** A raw request: malformed, Stop, a hand-over to the traveler, or an action on the page. */
  datatype Request = Invalid | Stop | HandOver | OnPage(action: Action)

  /** How far the action in flight has come. A finished session has returned, or will return, its last result. */
  datatype Phase =
    | Idle
    | Began(action: Action)
    | Refreshing
    | Effected
    | Finished(candidate: Option<seq<WorkflowStep>>)

  datatype Session = Session(
    actions: nat, phase: Phase, blocked: bool, onBlankPage: bool, hasSnapshot: bool,
    workflow: seq<WorkflowStep>, learnable: bool)

  const NewSession := Session(0, Idle, false, true, false, [], true)

  /** Open sessions, opens and closes under way, and every session there has been. */
  datatype State = State(sessions: set<nat>, opening: set<nat>, closing: set<nat>, records: map<nat, Session>)

  const Initial := State({}, {}, {}, map[])

  datatype Event =
    | Open(id: nat)
    | Opened(id: nat)
    | OpenFailed(id: nat)
    | Close(id: nat)
    | Timeout(id: nat)
    | Closed(id: nat)
    | Block(id: nat)
    | Act(id: nat, request: Request)
    | Navigated(id: nat, toStart: bool)
    | Recorded(id: nat, slot: Option<WorkflowStep>)
    | Clicked(id: nat, search: bool)
    | Looked(id: nat)
    | Stale(id: nat)
    | Priced(id: nat)
    | Ready(id: nat)
    | Failed(id: nat)

  function Load(s: State): nat {
    |s.sessions| + |s.opening| + |s.closing|
  }

  function With(s: State, id: nat, r: Session): State {
    s.(records := s.records[id := r])
  }

  /** Closing an open session: out of the map and into the closing set at once. */
  function BeginClose(s: State, id: nat): State {
    if id in s.sessions then s.(sessions := s.sessions - {id}, closing := s.closing + {id}) else s
  }

  /** A result that is not `ready` closes the session before it is returned. */
  function Finish(s: State, id: nat, r: Session, candidate: Option<seq<WorkflowStep>>): State {
    With(BeginClose(s, id), id, r.(phase := Finished(candidate)))
  }

  /** Steps that fill a field. */
  predicate IsSlot(step: WorkflowStep) {
    step !in {NavigateStart, Look, ClickSearch, Observe}
  }

  /** Push a step, or stop being learnable. */
  function Note(r: Session, step: Option<WorkflowStep>): Session {
    if step.Some? then r.(workflow := r.workflow + [step.value], phase := Effected)
    else r.(learnable := false, phase := Effected)
  }

  function Begin(limits: Limits, s: State, id: nat, request: Request): State {
    if id !in s.sessions || id !in s.records || !s.records[id].phase.Idle? then s
    else
      var r := s.records[id];
      if request.Invalid? || request.Stop? then Finish(s, id, r, None)
      else
        var counted := r.(actions := r.actions + 1);
        if counted.actions > limits.actions || r.blocked || request.HandOver? then Finish(s, id, counted, None)
        else With(s, id, counted.(phase := Began(request.action)))
  }

  /** What an action in flight does to its session record, when the page lets it. */
  function Effect(r: Session, e: Event): Option<Session> {
    match e
    case Navigated(_, toStart) =>
      if r.phase == Began(Navigate) then
        Some(Note(r, if toStart then Some(NavigateStart) else None).(onBlankPage := false))
      else None
    case Recorded(_, slot) =>
      if r.phase in {Began(Fill), Began(Select)} && r.hasSnapshot && (slot.Some? ==> IsSlot(slot.value)) then
        Some(Note(r, slot))
      else None
    case Clicked(_, search) =>
      if r.phase == Began(Click) && r.hasSnapshot then Some(Note(r, if search then Some(ClickSearch) else None))
      else None
    case Looked(_) => if r.phase == Began(Inspect) then Some(Note(r, Some(Look))) else None
    case Stale(_) =>
      if r.phase.Began? && r.phase.action !in {Navigate, Inspect} then Some(r.(phase := Refreshing)) else None
    case Ready(_) =>
      if (r.phase.Effected? || r.phase.Refreshing?) && !r.onBlankPage && !r.blocked then
        Some(r.(hasSnapshot := true, phase := Idle))
      else None
    case _ => None
  }

  /** One step. What is not possible in a state leaves it alone. */
  function Step(limits: Limits, s: State, e: Event): State {
    match e
    case Open(id) =>
      if id in s.opening || id in s.records || Load(s) >= limits.sessions then s else s.(opening := s.opening + {id})
    case Opened(id) =>
      if id !in s.opening then s
      else With(s.(opening := s.opening - {id}, sessions := s.sessions + {id}), id, NewSession)
    case OpenFailed(id) => s.(opening := s.opening - {id})
    case Close(id) => BeginClose(s, id)
    case Timeout(id) =>
      if id in s.sessions && id in s.records then With(BeginClose(s, id), id, s.records[id].(blocked := true)) else s
    case Closed(id) => s.(closing := s.closing - {id})
    case Block(id) => if id in s.records then With(s, id, s.records[id].(blocked := true)) else s
    case Act(id, request) => Begin(limits, s, id, request)
    case Priced(id) =>
      if id !in s.records || s.records[id].phase != Began(ReadPrice) || !s.records[id].hasSnapshot
         || s.records[id].blocked then s
      else
        var r := s.records[id].(workflow := s.records[id].workflow + [Observe]);
        Finish(s, id, r, if r.learnable then Some(r.workflow) else None)
    case Failed(id) =>
      if id !in s.records || s.records[id].phase.Idle? || s.records[id].phase.Finished? then s
      else Finish(s, id, s.records[id], None)
    case _ =>
      if e.id in s.records && Effect(s.records[e.id], e).Some? then With(s, e.id, Effect(s.records[e.id], e).value)
      else s
  }

  function Run(limits: Limits, events: seq<Event>): State {
    if events == [] then Initial else Step(limits, Run(limits, events[..|events| - 1]), events[|events| - 1])
  }

  lemma RunGoesOn(limits: Limits, events: seq<Event>, e: Event)
    ensures Run(limits, []) == Initial && Run(limits, events + [e]) == Step(limits, Run(limits, events), e)
  {
    hide Step;
    assert (events + [e])[..|events|] == events;
  }

  // ---------------------------------------------------------------------------
  // What every run keeps
  // ---------------------------------------------------------------------------

  /** Open sessions, opens and closes are different sessions, and there are never too many of them together. */
  predicate WithinCapacity(limits: Limits, s: State) {
    && Load(s) <= limits.sessions
    && s.sessions !! s.opening && s.sessions !! s.closing && s.opening !! s.closing
    && s.sessions <= s.records.Keys && s.closing <= s.records.Keys && s.opening !! s.records.Keys
  }

  /** A procedure worth learning: from the start page to an observed price, within the action budget. */
  predicate Learnable(limits: Limits, steps: seq<WorkflowStep>) {
    && 2 <= |steps| <= limits.actions
    && steps[0] == NavigateStart && steps[|steps| - 1] == Observe
    && Observe !in steps[..|steps| - 1]
  }

  predicate SoundSession(limits: Limits, r: Session) {
    && |r.workflow| <= r.actions
    && (r.phase.Began? ==> |r.workflow| < r.actions)
    && (!r.phase.Finished? ==> r.actions <= limits.actions && Observe !in r.workflow)
    && (r.hasSnapshot ==> !r.onBlankPage)
    && (!r.onBlankPage && r.learnable ==> r.workflow != [] && r.workflow[0] == NavigateStart)
    && (r.onBlankPage && !r.phase.Effected? && !r.phase.Finished? ==> r.workflow == [])
    && (r.phase.Finished? && r.phase.candidate.Some? ==> Learnable(limits, r.phase.candidate.value))
  }

  ghost predicate Kept(limits: Limits, s: State) {
    && WithinCapacity(limits, s)
    && (forall id :: id in s.records ==> SoundSession(limits, s.records[id]))
    && (forall id :: id in s.sessions && id in s.records ==> !s.records[id].phase.Finished?)
  }

  lemma EffectKeepsSound(limits: Limits, r: Session, e: Event)
    requires SoundSession(limits, r) && Effect(r, e).Some?
    ensures SoundSession(limits, Effect(r, e).value) && !Effect(r, e).value.phase.Finished?
  {
  }

  lemma BeginCloseKeepsCapacity(limits: Limits, s: State, id: nat)
    requires WithinCapacity(limits, s)
    ensures WithinCapacity(limits, BeginClose(s, id)) && BeginClose(s, id).records == s.records
    ensures id !in BeginClose(s, id).sessions
  {
  }

  /** Writing the record of a known session, sound and not finished while it is open. */
  lemma WithKeeps(limits: Limits, s: State, id: nat, r: Session)
    requires Kept(limits, s) && id in s.records && SoundSession(limits, r)
    requires id in s.sessions ==> !r.phase.Finished?
    ensures Kept(limits, With(s, id, r))
  {
    assert With(s, id, r).records.Keys == s.records.Keys;
  }

  lemma FinishKeeps(limits: Limits, s: State, id: nat, r: Session, candidate: Option<seq<WorkflowStep>>)
    requires Kept(limits, s) && id in s.records && SoundSession(limits, r.(phase := Finished(candidate)))
    ensures Kept(limits, Finish(s, id, r, candidate)) && id !in Finish(s, id, r, candidate).sessions
  {
    BeginCloseKeepsCapacity(limits, s, id);
    WithKeeps(limits, BeginClose(s, id), id, r.(phase := Finished(candidate)));
  }

  lemma OpenKeeps(limits: Limits, s: State, e: Event)
    requires Kept(limits, s) && (e.Open? || e.Opened? || e.OpenFailed? || e.Closed?)
    ensures Kept(limits, Step(limits, s, e))
  {
    hide SoundSession, WithinCapacity, Begin, Effect, Finish, BeginClose, Load;
    assert e.Opened? && e.id in s.opening ==> e.id !in s.records by {
      assert e.Opened? && e.id in s.opening ==> s.opening !! s.records.Keys by { OpeningIsNew(limits, s); }
    }
    NewSessionIsSound(limits);
    OpenKeepsCapacity(limits, s, e);
  }

  lemma OpeningIsNew(limits: Limits, s: State)
    requires WithinCapacity(limits, s)
    ensures s.opening !! s.records.Keys
  {
  }

  lemma NewSessionIsSound(limits: Limits)
    ensures SoundSession(limits, NewSession)
  {
  }

  lemma OpenKeepsCapacity(limits: Limits, s: State, e: Event)
    requires WithinCapacity(limits, s) && (e.Open? || e.Opened? || e.OpenFailed? || e.Closed?)
    ensures WithinCapacity(limits, Step(limits, s, e))
  {
  }

  lemma PricedKeeps(limits: Limits, s: State, id: nat)
    requires Kept(limits, s)
    ensures Kept(limits, Step(limits, s, Priced(id)))
  {
    if id in s.records && s.records[id].phase == Began(ReadPrice) && s.records[id].hasSnapshot
       && !s.records[id].blocked {
      var before := s.records[id];
      var r := before.(workflow := before.workflow + [Observe]);
      assert r.workflow[..|r.workflow| - 1] == before.workflow;
      FinishKeeps(limits, s, id, r, if r.learnable then Some(r.workflow) else None);
    }
  }

  lemma StepKeeps(limits: Limits, s: State, e: Event)
    requires Kept(limits, s)
    ensures Kept(limits, Step(limits, s, e))
  {
    hide WithinCapacity, SoundSession;
    match e {
      case Open(_) => OpenKeeps(limits, s, e);
      case Opened(_) => OpenKeeps(limits, s, e);
      case OpenFailed(_) => OpenKeeps(limits, s, e);
      case Closed(_) => OpenKeeps(limits, s, e);
      case Close(id) => BeginCloseKeepsCapacity(limits, s, id);
      case Timeout(id) => TimeoutKeeps(limits, s, id);
      case Block(id) => BlockKeeps(limits, s, id);
      case Act(id, request) => BeginKeeps(limits, s, id, request);
      case Priced(id) => PricedKeeps(limits, s, id);
      case Failed(id) => FailedKeeps(limits, s, id);
      case _ =>
        if e.id in s.records && Effect(s.records[e.id], e).Some? {
          EffectKeepsSound(limits, s.records[e.id], e);
          WithKeeps(limits, s, e.id, Effect(s.records[e.id], e).value);
        }
    }
  }

  lemma TimeoutKeeps(limits: Limits, s: State, id: nat)
    requires Kept(limits, s)
    ensures Kept(limits, Step(limits, s, Timeout(id)))
  {
    if id in s.sessions && id in s.records {
      BeginCloseKeepsCapacity(limits, s, id);
      WithKeeps(limits, BeginClose(s, id), id, s.records[id].(blocked := true));
    }
  }

  lemma BlockKeeps(limits: Limits, s: State, id: nat)
    requires Kept(limits, s)
    ensures Kept(limits, Step(limits, s, Block(id)))
  {
    if id in s.records {
      WithKeeps(limits, s, id, s.records[id].(blocked := true));
    }
  }

  lemma BeginningIsSound(limits: Limits, r: Session, request: Request)
    requires SoundSession(limits, r) && r.phase.Idle?
    ensures SoundSession(limits, r.(phase := Finished(None)))
    ensures var counted := r.(actions := r.actions + 1);
            && SoundSession(limits, counted.(phase := Finished(None)))
            && (counted.actions <= limits.actions && request.OnPage? ==>
              SoundSession(limits, counted.(phase := Began(request.action))))
  {
  }

  lemma BeginKeeps(limits: Limits, s: State, id: nat, request: Request)
    requires Kept(limits, s)
    ensures Kept(limits, Begin(limits, s, id, request))
  {
    hide SoundSession, WithinCapacity;
    if id in s.sessions && id in s.records && s.records[id].phase.Idle? {
      var r := s.records[id];
      var counted := r.(actions := r.actions + 1);
      BeginningIsSound(limits, r, request);
      if request.Invalid? || request.Stop? {
        FinishKeeps(limits, s, id, r, None);
      } else if counted.actions > limits.actions || r.blocked || request.HandOver? {
        FinishKeeps(limits, s, id, counted, None);
      } else {
        WithKeeps(limits, s, id, counted.(phase := Began(request.action)));
      }
    }
  }

  lemma FailedKeeps(limits: Limits, s: State, id: nat)
    requires Kept(limits, s)
    ensures Kept(limits, Step(limits, s, Failed(id)))
  {
    if id in s.records && !s.records[id].phase.Idle? && !s.records[id].phase.Finished? {
      FinishKeeps(limits, s, id, s.records[id], None);
    }
  }

  /** At every await of every run. */
  lemma {:induction false} EveryRunIsKept(limits: Limits, events: seq<Event>)
    ensures Kept(limits, Run(limits, events))
  {
    if events != [] {
      EveryRunIsKept(limits, events[..|events| - 1]);
      StepKeeps(limits, Run(limits, events[..|events| - 1]), events[|events| - 1]);
    }
  }

  // ---------------------------------------------------------------------------
  // What follows
  // ---------------------------------------------------------------------------

  /** A slot is taken by an accepted open and given back by a failed open or a finished close, and by nothing else. */
  lemma LoadIsConserved(limits: Limits, s: State, e: Event)
    requires Kept(limits, s)
    ensures Load(Step(limits, s, e)) == Load(s)
      + (if e.Open? && e.id !in s.opening && e.id !in s.records && Load(s) < limits.sessions then 1 else 0)
      - (if (e.OpenFailed? && e.id in s.opening) || (e.Closed? && e.id in s.closing) then 1 else 0)
  {
    hide Load, SoundSession, Effect, BeginClose, Begin;
    if e.Open? || e.Opened? || e.OpenFailed? || e.Closed? {
      OpenChangesLoad(limits, s, e);
    } else {
      hide WithinCapacity;
      ClosingKeepsLoad(limits, s, e.id);
      if e.Act? {
        BeginKeepsLoad(limits, s, e.id, e.request);
      }
      RecordsHaveNoLoad(s);
      RecordsHaveNoLoad(BeginClose(s, e.id));
    }
  }

  lemma RecordsHaveNoLoad(s: State)
    ensures forall id, r :: Load(With(s, id, r)) == Load(s)
  {
  }

  lemma OpenChangesLoad(limits: Limits, s: State, e: Event)
    requires WithinCapacity(limits, s) && (e.Open? || e.Opened? || e.OpenFailed? || e.Closed?)
    ensures Load(Step(limits, s, e)) == Load(s)
      + (if e.Open? && e.id !in s.opening && e.id !in s.records && Load(s) < limits.sessions then 1 else 0)
      - (if (e.OpenFailed? && e.id in s.opening) || (e.Closed? && e.id in s.closing) then 1 else 0)
  {
  }

  lemma ClosingKeepsLoad(limits: Limits, s: State, id: nat)
    requires WithinCapacity(limits, s)
    ensures Load(BeginClose(s, id)) == Load(s)
  {
  }

  lemma BeginKeepsLoad(limits: Limits, s: State, id: nat, request: Request)
    requires WithinCapacity(limits, s)
    ensures Load(Begin(limits, s, id, request)) == Load(s)
  {
    hide BeginClose;
    ClosingKeepsLoad(limits, s, id);
  }

  lemma FinishDomains(s: State, id: nat, r: Session, candidate: Option<seq<WorkflowStep>>)
    ensures var t := Finish(s, id, r, candidate); s.records.Keys <= t.records.Keys && t.sessions <= s.sessions
  {
  }

  lemma BeginDomains(limits: Limits, s: State, id: nat, request: Request)
    ensures var t := Begin(limits, s, id, request); s.records.Keys <= t.records.Keys && t.sessions <= s.sessions
  {
    hide Finish;
    if id in s.records {
      var r := s.records[id];
      FinishDomains(s, id, r, None);
      FinishDomains(s, id, r.(actions := r.actions + 1), None);
    }
  }

  /** Records stay, and only an open under way becomes a session. */
  lemma StepDomains(limits: Limits, s: State, e: Event)
    ensures var t := Step(limits, s, e); s.records.Keys <= t.records.Keys && t.sessions <= s.sessions + s.opening
  {
    hide Load, Effect, Begin, Finish;
    match e {
      case Act(id, request) => BeginDomains(limits, s, id, request);
      case Priced(id) =>
        if id in s.records {
          var r := s.records[id].(workflow := s.records[id].workflow + [Observe]);
          FinishDomains(s, id, r, if r.learnable then Some(r.workflow) else None);
        }
      case Failed(id) => if id in s.records { FinishDomains(s, id, s.records[id], None); }
      case _ =>
    }
  }

  lemma LeavingIsFinal(limits: Limits, s: State, e: Event, id: nat)
    requires Kept(limits, s) && id in s.records && id !in s.sessions
    ensures id in Step(limits, s, e).records && id !in Step(limits, s, e).sessions
  {
    OpeningIsNew(limits, s);
    hide Kept, WithinCapacity, Step;
    StepDomains(limits, s, e);
  }

  lemma {:induction false} GoneForGood(limits: Limits, events: seq<Event>, more: seq<Event>, id: nat)
    requires id in Run(limits, events).records && id !in Run(limits, events).sessions
    ensures id in Run(limits, events + more).records && id !in Run(limits, events + more).sessions
  {
    hide Kept, Step;
    if more == [] {
      AppendNothing(events);
    } else {
      var before := more[..|more| - 1];
      GoneForGood(limits, events, before, id);
      AppendInit(events, more);
      EveryRunIsKept(limits, events + before);
      LeavingIsFinal(limits, Run(limits, events + before), more[|more| - 1], id);
    }
  }

  /** A session whose action ended in anything but `ready` is gone, whatever happens next. */
  lemma ResultsEndSessions(limits: Limits, events: seq<Event>, more: seq<Event>, id: nat)
    requires id in Run(limits, events).records && Run(limits, events).records[id].phase.Finished?
    ensures id !in Run(limits, events + more).sessions
  {
    EveryRunIsKept(limits, events);
    GoneForGood(limits, events, more, id);
  }

  /** Does this event start an action on the page? */
  predicate Starts(limits: Limits, s: State, e: Event, id: nat) {
    && e.Act? && e.id == id && id in s.records && s.records[id].phase.Idle?
    && id in Begin(limits, s, id, e.request).records && Begin(limits, s, id, e.request).records[id].phase.Began?
  }

  /** How many actions a session has started in a run. */
  function Executed(limits: Limits, events: seq<Event>, id: nat): nat {
    if events == [] then 0
    else
      var init := events[..|events| - 1];
      Executed(limits, init, id) + if Starts(limits, Run(limits, init), events[|events| - 1], id) then 1 else 0
  }

  ghost predicate Tallies(limits: Limits, s: State, id: nat, executed: nat) {
    && executed <= limits.actions
    && (id !in s.records ==> executed == 0)
    && (id in s.records && !s.records[id].phase.Finished? ==> executed == s.records[id].actions)
  }

  lemma ClosingKeepsRecords(s: State, id: nat)
    ensures BeginClose(s, id).records == s.records
  {
  }

  lemma EffectKeepsCount(r: Session, e: Event)
    ensures Effect(r, e).Some? ==>
      Effect(r, e).value.actions == r.actions && !r.phase.Finished? && !Effect(r, e).value.phase.Finished?
  {
  }

  /** How one step changes the count of one session: a start adds one, and nothing else does. */
  predicate Counts(limits: Limits, s: State, e: Event, id: nat) {
    var t, started := Step(limits, s, e), if Starts(limits, s, e, id) then 1 else 0;
    && (id !in s.records && id in t.records ==> t.records[id].actions == 0)
    && (id in s.records && id in t.records && !t.records[id].phase.Finished? ==>
          !s.records[id].phase.Finished? && t.records[id].actions == s.records[id].actions + started)
    && (started == 1 ==>
          id in t.records && !t.records[id].phase.Finished? && t.records[id].actions <= limits.actions)
  }

  lemma ActCounts(limits: Limits, s: State, e: Event, id: nat)
    requires e.Act?
    ensures Counts(limits, s, e, id)
  {
    hide BeginClose;
    ClosingKeepsRecords(s, e.id);
  }

  lemma OthersCount(limits: Limits, s: State, e: Event, id: nat)
    requires !e.Act? && s.opening !! s.records.Keys
    ensures Counts(limits, s, e, id)
  {
    hide Begin, Effect, BeginClose, Load;
    ClosingKeepsRecords(s, e.id);
    if id in s.records {
      EffectKeepsCount(s.records[id], e);
    }
  }

  lemma StepTallies(limits: Limits, s: State, e: Event, id: nat, executed: nat)
    requires Kept(limits, s) && Tallies(limits, s, id, executed)
    ensures Tallies(limits, Step(limits, s, e), id, executed + if Starts(limits, s, e, id) then 1 else 0)
  {
    OpeningIsNew(limits, s);
    hide Kept, Begin, Step;
    StepDomains(limits, s, e);
    if e.Act? {
      ActCounts(limits, s, e, id);
    } else {
      OthersCount(limits, s, e, id);
    }
  }

  /** No session executes more than its budget of actions. */
  lemma {:induction false} ActionBudgetHolds(limits: Limits, events: seq<Event>, id: nat)
    ensures Tallies(limits, Run(limits, events), id, Executed(limits, events, id))
  {
    if events != [] {
      var init := events[..|events| - 1];
      hide Step, Starts, Tallies, Kept;
      ActionBudgetHolds(limits, init, id);
      EveryRunIsKept(limits, init);
      StepTallies(limits, Run(limits, init), events[|events| - 1], id, Executed(limits, init, id));
      assert Run(limits, events) == Step(limits, Run(limits, init), events[|events| - 1]);
    }
  }

  /** Every procedure a run hands out can be stored: from the start page to a price, in 2 to 20 steps. */
  lemma LearnedProceduresAreComplete(events: seq<Event>, id: nat)
    requires id in Run(LIMITS, events).records
    ensures var phase := Run(LIMITS, events).records[id].phase;
            phase.Finished? && phase.candidate.Some? ==>
              var steps := phase.candidate.value;
              2 <= |steps| <= 20 && steps[0] == NavigateStart && steps[|steps| - 1] == Observe
  {
    EveryRunIsKept(LIMITS, events);
    assert SoundSession(LIMITS, Run(LIMITS, events).records[id]);
  }

  /**
   With the worker's own limits: four sessions at a time, opening and closing ones included, and
   twenty actions each.
   */
  lemma FourSessionsOfTwentyActions(events: seq<Event>, id: nat)
    ensures var s := Run(LIMITS, events);
            && |s.sessions| + |s.opening| + |s.closing| <= 4
            && (id in s.sessions ==> id in s.records && s.records[id].actions <= 20)
    ensures Executed(LIMITS, events, id) <= 20
  {
    EveryRunIsKept(LIMITS, events);
    ActionBudgetHolds(LIMITS, events, id);
    var s := Run(LIMITS, events);
    if id in s.sessions {
      assert SoundSession(LIMITS, s.records[id]);
    }
  }

  // ---------------------------------------------------------------------------
  // What a procedure is made of
  // ---------------------------------------------------------------------------

  /** What an event of this session shows that a procedure can repeat, or that it cannot; None when it is not for it. */
  datatype Trace = Nothing | Repeats(step: WorkflowStep) | Strays

  /**
   What the traveler's session did by this event: it went to its start page or elsewhere, looked,
   filled a known or an unknown field, clicked a search button or something else.
   */
  ghost function TraceOf(s: State, e: Event, id: nat): Trace {
    if e.id != id || id !in s.records then Nothing
    else
      var r := s.records[id];
      match e
      case Navigated(_, toStart) =>
        if r.phase != Began(Navigate) then Nothing else if toStart then Repeats(NavigateStart) else Strays
      case Looked(_) => if r.phase != Began(Inspect) then Nothing else Repeats(Look)
      case Recorded(_, slot) =>
        if (r.phase != Began(Fill) && r.phase != Began(Select)) || !r.hasSnapshot then Nothing
        else if slot.None? then Strays
        else if slot.value in {NavigateStart, Look, ClickSearch, Observe} then Nothing
        else Repeats(slot.value)
      case Clicked(_, search) =>
        if r.phase != Began(Click) || !r.hasSnapshot then Nothing
        else if search then Repeats(ClickSearch) else Strays
      case _ => Nothing
  }

  /** The steps of a session in a run, in order. */
  ghost function StepsOf(limits: Limits, events: seq<Event>, id: nat): seq<WorkflowStep> {
    if events == [] then []
    else
      var init := events[..|events| - 1];
      var last := TraceOf(Run(limits, init), events[|events| - 1], id);
      StepsOf(limits, init, id) + if last.Repeats? then [last.step] else []
  }

  /** It did something that a procedure cannot repeat. */
  ghost predicate Strayed(limits: Limits, events: seq<Event>, id: nat) {
    events != [] && (
      || Strayed(limits, events[..|events| - 1], id)
      || TraceOf(Run(limits, events[..|events| - 1]), events[|events| - 1], id).Strays?)
  }

  /** A price is read, on a page with a snapshot that is not blocked. */
  ghost predicate IsPriced(s: State, e: Event, id: nat) {
    && e == Priced(id) && id in s.records && s.records[id].phase == Began(ReadPrice)
    && s.records[id].hasSnapshot && !s.records[id].blocked
  }

  /** A price was read for it. */
  ghost predicate WasPriced(limits: Limits, events: seq<Event>, id: nat) {
    events != [] && (
      || WasPriced(limits, events[..|events| - 1], id)
      || IsPriced(Run(limits, events[..|events| - 1]), events[|events| - 1], id))
  }

  /** A record against what its session did. */
  ghost predicate Tells(s: State, id: nat, steps: seq<WorkflowStep>, strayed: bool, priced: bool) {
    if id !in s.records then steps == [] && !strayed && !priced
    else
      var r := s.records[id];
      if r.phase.Finished? then r.phase.candidate == if priced && !strayed then Some(steps + [Observe]) else None
      else !priced && r.workflow == steps && r.learnable == !strayed
  }

  /**
   A session hands out a procedure exactly when its price was read and all it did can be repeated:
   its navigations, looks, fills and clicks in order, and the reading of the price.
   */
  lemma {:induction false} ProceduresAreWhatWasDone(limits: Limits, events: seq<Event>, id: nat)
    ensures Tells(Run(limits, events), id, StepsOf(limits, events, id), Strayed(limits, events, id),
                  WasPriced(limits, events, id))
  {
    if events != [] {
      var init, e := events[..|events| - 1], events[|events| - 1];
      hide Step, Tells, TraceOf, Kept;
      ProceduresAreWhatWasDone(limits, init, id);
      EveryRunIsKept(limits, init);
      StepTells(limits, Run(limits, init), e, id, StepsOf(limits, init, id), Strayed(limits, init, id),
        WasPriced(limits, init, id));
    }
  }

  /** Another session's event is no part of a session's story. */
  lemma OthersAreLeftAlone(limits: Limits, s: State, e: Event, id: nat)
    requires e.id != id
    ensures TraceOf(s, e, id) == Nothing
    ensures id in Step(limits, s, e).records <==> id in s.records
    ensures id in s.records ==> Step(limits, s, e).records[id] == s.records[id]
  {
    hide Effect;
  }

  /** Actions begin and fail without a trace. */
  lemma BeginningLeavesNoTrace(limits: Limits, s: State, e: Event, id: nat, steps: seq<WorkflowStep>, strayed: bool,
                               priced: bool)
    requires Tells(s, id, steps, strayed, priced) && e.id == id && (e.Act? || e.Failed?)
    ensures TraceOf(s, e, id) == Nothing && Tells(Step(limits, s, e), id, steps, strayed, priced)
  {
  }

  /** Slots are opened, closed and blocked without one. */
  lemma SlotsLeaveNoTrace(limits: Limits, s: State, e: Event, id: nat, steps: seq<WorkflowStep>, strayed: bool,
                          priced: bool)
    requires s.opening !! s.records.Keys && Tells(s, id, steps, strayed, priced)
    requires e.id == id
    requires e.Open? || e.Opened? || e.OpenFailed? || e.Close? || e.Closed? || e.Timeout? || e.Block?
    ensures TraceOf(s, e, id) == Nothing && Tells(Step(limits, s, e), id, steps, strayed, priced)
  {
    hide Load;
  }

  /** An effect leaves its trace; a price hands out what was traced. */
  lemma EffectsTell(limits: Limits, s: State, e: Event, id: nat, steps: seq<WorkflowStep>, strayed: bool, priced: bool)
    requires Tells(s, id, steps, strayed, priced)
    requires e.id == id && (e.Navigated? || e.Recorded? || e.Clicked? || e.Looked? || e.Stale? || e.Ready?)
    ensures var t, trace := Step(limits, s, e), TraceOf(s, e, id);
            Tells(t, id, steps + (if trace.Repeats? then [trace.step] else []), strayed || trace.Strays?, priced)
  {
    AppendNothing(steps);
  }

  lemma PriceTells(limits: Limits, s: State, id: nat, steps: seq<WorkflowStep>, strayed: bool, priced: bool)
    requires Tells(s, id, steps, strayed, priced)
    ensures TraceOf(s, Priced(id), id) == Nothing
    ensures Tells(Step(limits, s, Priced(id)), id, steps, strayed, priced || IsPriced(s, Priced(id), id))
  {
  }

  lemma StepTells(limits: Limits, s: State, e: Event, id: nat, steps: seq<WorkflowStep>, strayed: bool, priced: bool)
    requires Kept(limits, s) && Tells(s, id, steps, strayed, priced)
    ensures var t, trace := Step(limits, s, e), TraceOf(s, e, id);
            Tells(t, id, steps + (if trace.Repeats? then [trace.step] else []), strayed || trace.Strays?,
                  priced || IsPriced(s, e, id))
  {
    AppendNothing(steps);
    if e.id != id {
      OthersAreLeftAlone(limits, s, e, id);
      hide Step, TraceOf, Kept;
    } else if e.Priced? {
      PriceTells(limits, s, id, steps, strayed, priced);
    } else if e.Navigated? || e.Recorded? || e.Clicked? || e.Looked? || e.Stale? || e.Ready? {
      EffectsTell(limits, s, e, id, steps, strayed, priced);
    } else if e.Act? || e.Failed? {
      BeginningLeavesNoTrace(limits, s, e, id, steps, strayed, priced);
    } else {
      OpeningIsNew(limits, s);
      SlotsLeaveNoTrace(limits, s, e, id, steps, strayed, priced);
    }
  }

  // ---------------------------------------------------------------------------
  // The engine's fields
  // ---------------------------------------------------------------------------

  /** What an action is answered with at once: its session is unknown, busy, closed by it, or at work. */
  datatype Answer = Missing | Busy | Ending | Working

  lemma ActBegins(limits: Limits, s: State, id: nat, request: Request)
    requires Kept(limits, s)
    ensures s.sessions <= s.records.Keys
    ensures Step(limits, s, Act(id, request)) == Begin(limits, s, id, request)
    ensures id !in s.sessions || !s.records[id].phase.Idle? ==> Begin(limits, s, id, request) == s
  {
  }

  /** What opening and closing do to the state, for the methods that do it. */
  lemma OpenSteps(limits: Limits, s: State, id: nat)
    requires Kept(limits, s) && id in s.opening
    ensures id !in s.records && id !in s.sessions
    ensures Step(limits, s, Opened(id))
            == With(s.(opening := s.opening - {id}, sessions := s.sessions + {id}), id, NewSession)
    ensures Step(limits, s, OpenFailed(id)) == s.(opening := s.opening - {id})
    ensures Kept(limits, Step(limits, s, Opened(id))) && Kept(limits, Step(limits, s, OpenFailed(id)))
  {
    hide SoundSession, Load;
    StepKeeps(limits, s, Opened(id));
    StepKeeps(limits, s, OpenFailed(id));
  }

  lemma CloseSteps(limits: Limits, s: State, id: nat)
    requires Kept(limits, s) && id in s.sessions
    ensures id in s.records
    ensures Step(limits, s, Close(id)) == BeginClose(s, id)
    ensures Step(limits, s, Timeout(id)) == With(BeginClose(s, id), id, s.records[id].(blocked := true))
    ensures Kept(limits, Step(limits, s, Close(id))) && Kept(limits, Step(limits, s, Timeout(id)))
  {
    hide SoundSession, Load;
    StepKeeps(limits, s, Close(id));
    StepKeeps(limits, s, Timeout(id));
  }

  lemma FailedSteps(limits: Limits, s: State, id: nat)
    requires Kept(limits, s) && id in s.records && !s.records[id].phase.Idle? && !s.records[id].phase.Finished?
    ensures Step(limits, s, Failed(id)) == Finish(s, id, s.records[id], None)
    ensures Kept(limits, Step(limits, s, Failed(id)))
  {
    hide Kept, Finish;
    FailedKeeps(limits, s, id);
  }

  class BrowserEngine {
    const limits: Limits
    var sessions: set<nat>
    var pending: nat
    var closing: set<nat>
    var records: map<nat, Session>
    /** The next session's number. */
    var next: nat
    ghost var opening: set<nat>

    ghost function Now(): State
      reads this
    {
      State(sessions, opening, closing, records)
    }

    ghost predicate Valid()
      reads this
    {
      && Kept(limits, Now()) && pending == |opening|
      && (forall id :: id in opening || id in records ==> id < next)
    }

    constructor (limits: Limits)
      ensures Valid() && this.limits == limits && Now() == Initial
    {
      this.limits := limits;
      sessions, pending, closing, records, next, opening := {}, 0, {}, map[], 0, {};
    }

    /** An open that is let in holds its slot from here on. */
    method Open(siteKnown: bool, requestLength: nat) returns (id: nat, busy: bool)
      requires Valid()
      modifies this
      ensures Valid()
      ensures busy == (!siteKnown || requestLength > 8000 || Load(old(Now())) >= limits.sessions)
      ensures Now() == if busy then old(Now()) else Step(limits, old(Now()), Event.Open(id))
      ensures !busy ==> id in opening && id !in old(opening) && id !in records
    {
      hide SoundSession;
      id, busy := next, false;
      if !siteKnown || requestLength > 8000 || |sessions| + pending + |closing| >= limits.sessions {
        return id, true;
      }
      pending := pending + 1;
      next := next + 1;
      StepKeeps(limits, Now(), Event.Open(id));
      opening := opening + {id};
    }

    /** The context is up and the session is in the map; or it is torn down again. */
    method FinishOpen(id: nat, ok: bool)
      requires Valid() && id in opening
      modifies this
      ensures Valid() && Now() == Step(limits, old(Now()), if ok then Opened(id) else OpenFailed(id))
      ensures opening == old(opening) - {id} && pending == old(pending) - 1
      ensures ok ==> sessions == old(sessions) + {id} && records[id].actions == 0 && records[id].onBlankPage
                     && records[id].workflow == [] && records[id].learnable && !records[id].blocked
                     && records[id].phase == Idle
                     && !records[id].hasSnapshot
      ensures !ok ==> sessions == old(sessions) && records == old(records)
    {
      hide Kept, Step;
      OpenSteps(limits, Now(), id);
      if ok {
        sessions := sessions + {id};
        records := records[id := NewSession];
      }
      opening := opening - {id};
      pending := pending - 1;
    }

    method Close(id: nat) returns (missing: bool)
      requires Valid()
      modifies this
      ensures Valid() && missing == (id !in old(sessions))
      ensures Now() == Step(limits, old(Now()), Event.Close(id))
      ensures !missing ==> sessions == old(sessions) - {id} && closing == old(closing) + {id}
    {
      hide Kept;
      if id !in sessions {
        return true;
      }
      hide Step;
      missing := false;
      CloseSteps(limits, Now(), id);
      sessions := sessions - {id};
      closing := closing + {id};
    }

    method FinishClose(id: nat)
      requires Valid()
      modifies this
      ensures Valid() && Now() == Step(limits, old(Now()), Closed(id))
      ensures closing == old(closing) - {id} && sessions == old(sessions)
    {
      hide SoundSession;
      StepKeeps(limits, Now(), Closed(id));
      closing := closing - {id};
    }

    /** The lifetime timer or the idle sweep. */
    method TimeOut(id: nat)
      requires Valid() && id in sessions
      modifies this
      ensures Valid() && Now() == Step(limits, old(Now()), Timeout(id))
      ensures sessions == old(sessions) - {id} && closing == old(closing) + {id} && records[id].blocked
    {
      hide Kept, Step;
      CloseSteps(limits, Now(), id);
      records := records[id := records[id].(blocked := true)];
      sessions := sessions - {id};
      closing := closing + {id};
    }

    /** Ask for an action: everything up to the first await. */
    method Act(id: nat, request: Request) returns (answer: Answer)
      requires Valid()
      modifies this
      ensures Valid() && Now() == Step(limits, old(Now()), Event.Act(id, request))
      ensures answer == Missing <==> id !in old(sessions)
      ensures answer == Busy <==> id in old(sessions) && old(records)[id].phase != Idle
      ensures answer == Working <==> (
        && id in old(sessions) && old(records)[id].phase == Idle && request.OnPage?
        && old(records)[id].actions < limits.actions && !old(records)[id].blocked)
      ensures answer == Working ==>
        records[id] == old(records)[id].(actions := old(records)[id].actions + 1, phase := Began(request.action))
      ensures answer == Ending ==>
        && id !in sessions && id in closing && records[id].phase == Finished(None)
        && records[id].actions == old(records)[id].actions + if request.Invalid? || request.Stop? then 0 else 1
    {
      hide Kept, Begin, Step;
      ActBegins(limits, Now(), id, request);
      BeginKeeps(limits, Now(), id, request);
      if id !in sessions {
        return Missing;
      }
      if !records[id].phase.Idle? {
        return Busy;
      }
      answer := Start(id, request);
    }

    method Start(id: nat, request: Request) returns (answer: Answer)
      requires id in sessions && id in records && records[id].phase.Idle?
      modifies this`sessions, this`closing, this`records
      ensures Now() == Begin(limits, old(Now()), id, request)
      ensures records.Keys == old(records.Keys)
      ensures answer == if records[id].phase.Began? then Working else Ending
      ensures records[id].phase.Began? || records[id].phase.Finished?
      ensures answer == Working <==>
        request.OnPage? && old(records)[id].actions < limits.actions && !old(records)[id].blocked
      ensures answer == Working ==>
        records[id] == old(records)[id].(actions := old(records)[id].actions + 1, phase := Began(request.action))
      ensures answer == Ending ==>
        && id !in sessions && id in closing && records[id].phase == Finished(None)
        && records[id].actions == old(records)[id].actions + if request.Invalid? || request.Stop? then 0 else 1
    {
      hide Finish;
      var s := records[id];
      if request.Invalid? || request.Stop? {
        End(id, s);
        return Ending;
      }
      s := s.(actions := s.actions + 1);
      if s.actions > limits.actions || s.blocked || request.HandOver? {
        End(id, s);
        return Ending;
      }
      records := records[id := s.(phase := Began(request.action))];
      answer := Working;
    }

    /** Close, then return the result: the record keeps no candidate. */
    method End(id: nat, s: Session)
      requires id in sessions && id in records
      modifies this`sessions, this`closing, this`records
      ensures Now() == Finish(old(Now()), id, s, None)
      ensures records == old(records)[id := s.(phase := Finished(None))]
      ensures sessions == old(sessions) - {id} && closing == old(closing) + {id}
    {
      sessions := sessions - {id};
      closing := closing + {id};
      records := records[id := s.(phase := Finished(None))];
    }

    /** The page was reached: its own start page is a step, any other address ends the learning. */
    method Navigate(id: nat, toStart: bool)
      requires Valid() && id in records && records[id].phase == Began(Action.Navigate)
      modifies this
      ensures Valid() && Now() == Step(limits, old(Now()), Navigated(id, toStart))
      ensures records[id].workflow == old(records)[id].workflow + if toStart then [NavigateStart] else []
      ensures records[id].learnable <==> old(records)[id].learnable && toStart
      ensures records[id].phase == Effected && !records[id].onBlankPage
    {
      hide SoundSession;
      StepKeeps(limits, Now(), Navigated(id, toStart));
      var s := records[id];
      if toStart {
        s := s.(workflow := s.workflow + [NavigateStart]);
      } else {
        s := s.(learnable := false);
      }
      records := records[id := s.(phase := Effected, onBlankPage := false)];
    }

    /** A control is about to be clicked: a search button is a step, any other ends the learning. */
    method ClickControl(id: nat, search: bool)
      requires Valid() && id in records && records[id].phase == Began(Click) && records[id].hasSnapshot
      modifies this
      ensures Valid() && Now() == Step(limits, old(Now()), Clicked(id, search))
      ensures records[id].workflow == old(records)[id].workflow + if search then [ClickSearch] else []
      ensures records[id].learnable <==> old(records)[id].learnable && search
      ensures records[id].phase == Effected && records[id].hasSnapshot
    {
      hide SoundSession;
      StepKeeps(limits, Now(), Clicked(id, search));
      var s := records[id];
      if search {
        s := s.(workflow := s.workflow + [ClickSearch]);
      } else {
        s := s.(learnable := false);
      }
      records := records[id := s.(phase := Effected)];
    }

    /** The action ends with a snapshot of a page that is not blocked. */
    method FinishReady(id: nat)
      requires Valid() && id in records && (records[id].phase.Effected? || records[id].phase.Refreshing?)
      requires !records[id].onBlankPage && !records[id].blocked
      modifies this
      ensures Valid() && Now() == Step(limits, old(Now()), Ready(id))
      ensures records[id] == old(records)[id].(hasSnapshot := true, phase := Idle)
    {
      hide SoundSession;
      StepKeeps(limits, Now(), Ready(id));
      records := records[id := records[id].(hasSnapshot := true, phase := Idle)];
    }

    /** The action ends in a hand-over, for whatever reason: its session closes first. */
    method HandOff(id: nat)
      requires Valid() && id in records && !records[id].phase.Idle? && !records[id].phase.Finished?
      modifies this
      ensures Valid() && Now() == Step(limits, old(Now()), Failed(id)) && id !in sessions
      ensures records[id] == old(records)[id].(phase := Finished(None))
      ensures id in old(sessions) ==> id in closing
    {
      hide Kept, Step;
      FailedSteps(limits, Now(), id);
      if id in sessions {
        sessions := sessions - {id};
        closing := closing + {id};
      }
      records := records[id := records[id].(phase := Finished(None))];
    }

    /** A field is about to be filled or selected. */
    method RecordField(id: nat, slot: Option<WorkflowStep>)
      requires Valid() && id in records && records[id].phase in {Began(Fill), Began(Select)} && records[id].hasSnapshot
      requires slot.Some? ==> IsSlot(slot.value)
      modifies this
      ensures Valid() && Now() == Step(limits, old(Now()), Recorded(id, slot))
      ensures records[id].workflow == old(records)[id].workflow + if slot.Some? then [slot.value] else []
      ensures records[id].learnable <==> old(records)[id].learnable && slot.Some?
      ensures records[id].phase == Effected && records[id].hasSnapshot
    {
      hide SoundSession;
      StepKeeps(limits, Now(), Recorded(id, slot));
      var s := records[id];
      if slot.Some? {
        s := s.(workflow := s.workflow + [slot.value]);
      } else {
        s := s.(learnable := false);
      }
      records := records[id := s.(phase := Effected)];
    }

    /** The price was found on the page: hand it out, with what was learned, and close. */
    method ObservePrice(id: nat) returns (candidate: Option<seq<WorkflowStep>>)
      requires Valid() && id in records && records[id].phase == Began(ReadPrice)
      requires records[id].hasSnapshot && !records[id].blocked
      modifies this
      ensures Valid() && Now() == Step(limits, old(Now()), Priced(id))
      ensures candidate.Some? ==> Learnable(limits, candidate.value)
      ensures candidate == if old(records)[id].learnable then Some(old(records)[id].workflow + [Observe]) else None
      ensures records[id].phase == Finished(candidate) && id !in sessions
    {
      hide WithinCapacity, Effect, Begin, Learnable;
      PricedKeeps(limits, Now(), id);
      var s := records[id];
      s := s.(workflow := s.workflow + [Observe]);
      candidate := if s.learnable then Some(s.workflow) else None;
      if id in sessions {
        sessions := sessions - {id};
        closing := closing + {id};
      }
      records := records[id := s.(phase := Finished(candidate))];
      assert SoundSession(limits, records[id]);
    }
  }
}
