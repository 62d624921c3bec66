/**
 Which tools a turn runs (packages/agent-core/src/tool-calls.ts): the planner that
 filters a model's calls and fills the rest from the router, and the runner that
 executes a plan in order. Wording, argument schemas and what a tool does are
 parameters of the desk; the bookkeeping is the source's.
 */
module ToolCalls {
  import opened Wrappers
  import opened Sequences
  import opened Numbers

  const MAX_TOOLS_PER_TURN: nat := 3
  /** How much of a call's arguments identifies it. */
  const KEY_LENGTH: nat := 600

  datatype ToolSource = FromModel | FromRouter
  datatype ModelCall = ModelCall(name: string, arguments: string)
  datatype PlannedCall = PlannedCall(source: ToolSource, name: string, args: Option<string>)

  /** `retryable` absent means the tool did not say; `blocked` marks the desk's own refusal. */
  datatype ToolResult = ToolResult(name: string, ok: bool, summary: string, blocked: bool, retryable: Option<bool>)

  datatype ToolPlan = ToolPlan(calls: seq<PlannedCall>, rejected: seq<ToolResult>,
                               blocked: seq<ToolResult>, repeated: nat)

  /** The tool catalog and the argument schemas of its tools. */
  datatype Desk = Desk(catalog: set<string>, parses: (string, string) -> bool)

  /** What the planner is asked: this pass's calls, and what earlier passes of the turn did. */
  datatype Request = Request(routerNames: seq<string>, modelCalls: seq<ModelCall>, remaining: int,
                             ran: seq<string>, ranTools: seq<string>, dead: map<string, string>)

  function Limit(name: string): Option<nat> {
    if name == "web.search" then Some(2) else None
  }

  function Prefix(s: string, n: nat): string {
    if |s| <= n then s else s[..n]
  }

  function ToolCallKey(name: string, args: Option<string>): string {
    name + ":" + Prefix(args.GetOr(""), KEY_LENGTH)
  }

  function KeyOf(call: PlannedCall): string {
    ToolCallKey(call.name, call.args)
  }

  function Keys(calls: seq<PlannedCall>): (keys: seq<string>)
    ensures |keys| == |calls| && forall i :: 0 <= i < |calls| ==> keys[i] == KeyOf(calls[i])
  {
    seq(|calls|, i requires 0 <= i < |calls| => KeyOf(calls[i]))
  }

  function Names(calls: seq<PlannedCall>): (names: seq<string>)
    ensures |names| == |calls| && forall i :: 0 <= i < |calls| ==> names[i] == calls[i].name
  {
    seq(|calls|, i requires 0 <= i < |calls| => calls[i].name)
  }

  function Count(names: seq<string>, name: string): nat {
    if names == [] then 0
    else Count(names[..|names| - 1], name) + if names[|names| - 1] == name then 1 else 0
  }

  function Ceiling(req: Request): nat {
    if req.remaining <= 0 then 0
    else if req.remaining <= MAX_TOOLS_PER_TURN then req.remaining
    else MAX_TOOLS_PER_TURN
  }

  /** Why the turn already knows the tool cannot work; empty when it does not. */
  function DeadReason(dead: map<string, string>, name: string): string {
    if name in dead then dead[name] else ""
  }

  function Rejection(name: string): ToolResult {
    ToolResult(name, false, "", false, None)
  }

  function BlockedCall(name: string): ToolResult {
    Rejection(name).(blocked := true)
  }

  // ---------------------------------------------------------------------------
  // The planner, one request at a time
  // ---------------------------------------------------------------------------

  /** The plan under construction; `refused` are the names already rejected in this pass. */
  datatype Planning = Planning(plan: ToolPlan, refused: set<string>)

  predicate AlreadyRan(req: Request, p: ToolPlan, key: string) {
    key in req.ran || key in Keys(p.calls)
  }

  function Used(req: Request, p: ToolPlan, name: string): nat {
    Count(req.ranTools, name) + Count(Names(p.calls), name)
  }

  predicate OverLimit(req: Request, p: ToolPlan, name: string) {
    Limit(name).Some? && Used(req, p, name) >= Limit(name).value
  }

  function ConsiderModelCall(desk: Desk, req: Request, s: Planning, call: ModelCall): Planning {
    var p, name := s.plan, call.name;
    if |p.calls| >= Ceiling(req) then s
    else if name !in desk.catalog then
      if |p.rejected| >= Ceiling(req) || name in s.refused then s
      else Planning(p.(rejected := p.rejected + [Rejection(if name == "" then "unknown" else name)]),
                    s.refused + {name})
    else if AlreadyRan(req, p, ToolCallKey(name, Some(call.arguments))) then
      s.(plan := p.(repeated := p.repeated + 1))
    else if name in s.refused then s
    else if DeadReason(req.dead, name) != "" || OverLimit(req, p, name) then
      s.(plan := p.(blocked := p.blocked + [BlockedCall(name)]))
    else if !desk.parses(name, call.arguments) then
      Planning(if |p.rejected| < Ceiling(req) then p.(rejected := p.rejected + [Rejection(name)]) else p,
               s.refused + {name})
    else
      s.(plan := p.(calls := p.calls + [PlannedCall(FromModel, name, Some(Prefix(call.arguments, KEY_LENGTH)))]))
  }

  function ConsiderRouterName(desk: Desk, req: Request, p: ToolPlan, name: string): ToolPlan {
    if || |p.calls| >= Ceiling(req)
       || name !in desk.catalog || name in req.ranTools || name in Names(p.calls)
       || DeadReason(req.dead, name) != "" || OverLimit(req, p, name)
    then p
    else p.(calls := p.calls + [PlannedCall(FromRouter, name, None)])
  }

  function PlanModelCalls(desk: Desk, req: Request, n: nat): Planning
    requires n <= |req.modelCalls|
  {
    if n == 0 then Planning(ToolPlan([], [], [], 0), {})
    else ConsiderModelCall(desk, req, PlanModelCalls(desk, req, n - 1), req.modelCalls[n - 1])
  }

  function PlanRouterNames(desk: Desk, req: Request, n: nat): ToolPlan
    requires n <= |req.routerNames|
  {
    if n == 0 then PlanModelCalls(desk, req, |req.modelCalls|).plan
    else ConsiderRouterName(desk, req, PlanRouterNames(desk, req, n - 1), req.routerNames[n - 1])
  }

  function Plan(desk: Desk, req: Request): ToolPlan {
    if Ceiling(req) == 0 then ToolPlan([], [], [], 0)
    else PlanRouterNames(desk, req, |req.routerNames|)
  }

  /** The desk's own refusals: none says that a retry is pointless. */
  ghost predicate Refusals(results: seq<ToolResult>) {
    forall r :: r in results ==> r.blocked || r.retryable == None
  }

  lemma {:induction false} RefusalsOfModelCalls(desk: Desk, req: Request, n: nat)
    requires n <= |req.modelCalls|
    ensures Refusals(PlanModelCalls(desk, req, n).plan.blocked) && Refusals(PlanModelCalls(desk, req, n).plan.rejected)
  {
    hide OverLimit, AlreadyRan, DeadReason;
    if n > 0 {
      RefusalsOfModelCalls(desk, req, n - 1);
    }
  }

  lemma {:induction false} RefusalsOfRouter(desk: Desk, req: Request, n: nat)
    requires n <= |req.routerNames|
    ensures Refusals(PlanRouterNames(desk, req, n).blocked) && Refusals(PlanRouterNames(desk, req, n).rejected)
  {
    hide OverLimit, DeadReason, PlanModelCalls;
    if n == 0 {
      RefusalsOfModelCalls(desk, req, |req.modelCalls|);
    } else {
      RefusalsOfRouter(desk, req, n - 1);
    }
  }

  lemma RefusalsAreTheDesks(desk: Desk, req: Request)
    ensures Refusals(Plan(desk, req).blocked) && Refusals(Plan(desk, req).rejected)
  {
    hide PlanRouterNames;
    if Ceiling(req) > 0 {
      RefusalsOfRouter(desk, req, |req.routerNames|);
    }
  }

  // ---------------------------------------------------------------------------
  // Keys identify a tool
  // ---------------------------------------------------------------------------

  /** No tool on the desk has a colon in its name. */
  ghost predicate PlainNames(names: set<string>) {
    forall name :: name in names ==> ':' !in name
  }

  /** The bundled tools. */
  const BUNDLED_TOOLS: set<string> := {
    "trip.outline", "budget.estimate", "packing.list", "places.suggest", "currency.convert",
    "weather.outlook", "visa.notes", "memory.remember", "flights.search", "stays.search",
    "web.search", "web.fetch"
  }

  lemma BundledNamesArePlain()
    ensures PlainNames(BUNDLED_TOOLS)
  {
    forall name | name in BUNDLED_TOOLS ensures ':' !in name {
    }
  }

  /** Two plain names with one key are one name. */
  lemma KeyNamesTool(a: string, x: Option<string>, b: string, y: Option<string>)
    requires ':' !in a && ':' !in b
    requires ToolCallKey(a, x) == ToolCallKey(b, y)
    ensures a == b
  {
    var k := ToolCallKey(a, x);
    assert k[|a|] == ':' && k[|b|] == ':';
    assert k[..|a|] == a && k[..|b|] == b;
  }

  /** What of a call's arguments its key tells apart: their first 600 characters. */
  function Told(args: string): string {
    if |args| <= 600 then args else args[..600]
  }

  /**
   Two calls of plain names are one call exactly when name and the first 600 characters of the
   arguments are the same.
   */
  lemma KeysMatchExactly(a: string, x: string, b: string, y: string)
    requires ':' !in a && ':' !in b
    ensures ToolCallKey(a, Some(x)) == ToolCallKey(b, Some(y)) <==> a == b && Told(x) == Told(y)
    ensures ToolCallKey(a, None) == ToolCallKey(b, Some(y)) <==> a == b && y == ""
  {
    var k, l, none := ToolCallKey(a, Some(x)), ToolCallKey(b, Some(y)), ToolCallKey(a, None);
    assert k[|a| + 1..] == Told(x) && l[|b| + 1..] == Told(y) && none[|a| + 1..] == "";
    if k == l {
      KeyNamesTool(a, Some(x), b, Some(y));
    }
    if none == l {
      KeyNamesTool(a, None, b, Some(y));
    }
  }

  lemma PrefixTwice(s: string, n: nat)
    ensures Prefix(Prefix(s, n), n) == Prefix(s, n)
  {
  }

  lemma CountSnoc(names: seq<string>, last: string, name: string)
    ensures Count(names + [last], name) == Count(names, name) + if last == name then 1 else 0
  {
    assert (names + [last])[..|names|] == names;
  }

  lemma {:induction false} CountAppend(a: seq<string>, b: seq<string>, name: string)
    ensures Count(a + b, name) == Count(a, name) + Count(b, name)
  {
    if b == [] {
      assert a + b == a;
    } else {
      CountAppend(a, b[..|b| - 1], name);
      assert a + b == (a + b[..|b| - 1]) + [b[|b| - 1]];
      CountSnoc(a + b[..|b| - 1], b[|b| - 1], name);
    }
  }

  lemma {:induction false} CountAbsent(names: seq<string>, name: string)
    requires name !in names
    ensures Count(names, name) == 0
  {
    if names != [] {
      CountAbsent(names[..|names| - 1], name);
    }
  }

  // ---------------------------------------------------------------------------
  // What every plan keeps
  // ---------------------------------------------------------------------------

  /** What the turn says it ran: distinct calls of tools on this desk, by key and by name. */
  ghost predicate HonestHistory(desk: Desk, req: Request) {
    && PlainNames(desk.catalog)
    && |req.ran| == |req.ranTools|
    && Distinct(req.ran)
    && forall i :: 0 <= i < |req.ran| ==>
         req.ranTools[i] in desk.catalog && exists x :: req.ran[i] == ToolCallKey(req.ranTools[i], x)
  }

  /** The model asked for exactly this, with arguments that validate. */
  ghost predicate Requested(desk: Desk, req: Request, c: PlannedCall) {
    exists m :: m in req.modelCalls && m.name == c.name && desk.parses(m.name, m.arguments)
      && c.args == Some(Prefix(m.arguments, KEY_LENGTH))
  }

  /** A call the plan may hold: a live tool on the desk, asked for by the model or picked by the router. */
  ghost predicate MayRun(desk: Desk, req: Request, c: PlannedCall) {
    && c.name in desk.catalog && DeadReason(req.dead, c.name) == ""
    && (c.source == FromModel ==> Requested(desk, req, c))
    && (c.source == FromRouter ==> c.args == None && c.name in req.routerNames)
  }

  ghost predicate WithinLimits(req: Request, p: ToolPlan) {
    forall c :: c in p.calls && Limit(c.name).Some? ==> Used(req, p, c.name) <= Limit(c.name).value
  }

  /** The router only fills in after the model, with tools nobody ran. */
  ghost predicate RouterFillsIn(req: Request, calls: seq<PlannedCall>) {
    && (forall i, j :: 0 <= i < j < |calls| && calls[i].source == FromRouter ==> calls[j].source == FromRouter)
    && (forall i, j :: 0 <= i < j < |calls| && calls[j].source == FromRouter ==> calls[i].name != calls[j].name)
    && (forall c :: c in calls && c.source == FromRouter ==> c.name !in req.ranTools)
  }

  /** The plan runs only tools it may: within every ceiling, and nothing twice. */
  ghost predicate Sound(desk: Desk, req: Request, p: ToolPlan) {
    && |p.calls| <= Ceiling(req)
    && Distinct(req.ran + Keys(p.calls))
    && (forall c :: c in p.calls ==> MayRun(desk, req, c))
    && WithinLimits(req, p)
    && RouterFillsIn(req, p.calls)
  }

  lemma AppendKeepsLimits(req: Request, p: ToolPlan, c: PlannedCall, next: ToolPlan)
    requires WithinLimits(req, p) && !OverLimit(req, p, c.name) && next.calls == p.calls + [c]
    ensures WithinLimits(req, next)
  {
    assert Names(next.calls) == Names(p.calls) + [c.name];
    forall d | d in next.calls && Limit(d.name).Some? ensures Used(req, next, d.name) <= Limit(d.name).value {
      CountSnoc(Names(p.calls), c.name, d.name);
      if d.name != c.name {
        assert d in p.calls;
      }
    }
  }

  lemma AppendKeepsSound(desk: Desk, req: Request, p: ToolPlan, c: PlannedCall, next: ToolPlan)
    requires Sound(desk, req, p) && |p.calls| < Ceiling(req)
    requires next.calls == p.calls + [c]
    requires !AlreadyRan(req, p, KeyOf(c)) && MayRun(desk, req, c) && !OverLimit(req, p, c.name)
    requires c.source == FromModel ==> forall d :: d in p.calls ==> d.source == FromModel
    requires c.source == FromRouter ==> c.name !in Names(p.calls) && c.name !in req.ranTools
    ensures Sound(desk, req, next)
  {
    hide MayRun, Count;
    assert Keys(next.calls) == Keys(p.calls) + [KeyOf(c)];
    assert req.ran + Keys(next.calls) == (req.ran + Keys(p.calls)) + [KeyOf(c)];
    assert forall i :: 0 <= i < |p.calls| ==> p.calls[i].name == Names(p.calls)[i];
    AppendKeepsLimits(req, p, c, next);
  }

  ghost predicate AllFromModel(p: ToolPlan) {
    forall c :: c in p.calls ==> c.source == FromModel
  }

  lemma ModelStepIsSound(desk: Desk, req: Request, s: Planning, call: ModelCall)
    requires Sound(desk, req, s.plan) && AllFromModel(s.plan) && call in req.modelCalls
    ensures var p := ConsiderModelCall(desk, req, s, call).plan; Sound(desk, req, p) && AllFromModel(p)
  {
    hide WithinLimits, Count, RouterFillsIn, Distinct;
    var next := ConsiderModelCall(desk, req, s, call).plan;
    if next.calls != s.plan.calls {
      var c := next.calls[|s.plan.calls|];
      PrefixTwice(call.arguments, KEY_LENGTH);
      assert KeyOf(c) == ToolCallKey(call.name, Some(call.arguments));
      AppendKeepsSound(desk, req, s.plan, c, next);
    } else {
      SameCallsSameSound(desk, req, s.plan, next);
    }
  }

  lemma SameCallsSameSound(desk: Desk, req: Request, p: ToolPlan, q: ToolPlan)
    requires Sound(desk, req, p) && q.calls == p.calls
    ensures Sound(desk, req, q)
  {
    hide MayRun, Count;
  }

  lemma {:induction false} ModelPlanIsSound(desk: Desk, req: Request, n: nat)
    requires HonestHistory(desk, req) && n <= |req.modelCalls|
    ensures var p := PlanModelCalls(desk, req, n).plan; Sound(desk, req, p) && AllFromModel(p)
  {
    if n == 0 {
      assert req.ran + Keys([]) == req.ran;
    } else {
      hide ConsiderModelCall, Sound, AllFromModel;
      ModelPlanIsSound(desk, req, n - 1);
      ModelStepIsSound(desk, req, PlanModelCalls(desk, req, n - 1), req.modelCalls[n - 1]);
    }
  }

  /** A tool that has not run under its name has not run under the router's key either. */
  lemma RouterKeyIsFresh(desk: Desk, req: Request, p: ToolPlan, name: string)
    requires HonestHistory(desk, req) && Sound(desk, req, p) && name in desk.catalog
    requires name !in req.ranTools && name !in Names(p.calls)
    ensures !AlreadyRan(req, p, ToolCallKey(name, None))
  {
    var key := ToolCallKey(name, None);
    if i :| 0 <= i < |req.ran| && req.ran[i] == key {
      var x :| req.ran[i] == ToolCallKey(req.ranTools[i], x);
      KeyNamesTool(name, None, req.ranTools[i], x);
    }
    if i :| 0 <= i < |p.calls| && Keys(p.calls)[i] == key {
      assert p.calls[i] in p.calls;
      KeyNamesTool(name, None, p.calls[i].name, p.calls[i].args);
      assert false;
    }
  }

  lemma {:induction false} RouterPlanIsSound(desk: Desk, req: Request, n: nat)
    requires HonestHistory(desk, req) && n <= |req.routerNames|
    ensures Sound(desk, req, PlanRouterNames(desk, req, n))
  {
    if n == 0 {
      ModelPlanIsSound(desk, req, |req.modelCalls|);
    } else {
      RouterPlanIsSound(desk, req, n - 1);
      var p, name := PlanRouterNames(desk, req, n - 1), req.routerNames[n - 1];
      var next := ConsiderRouterName(desk, req, p, name);
      if next != p {
        RouterKeyIsFresh(desk, req, p, name);
        AppendKeepsSound(desk, req, p, PlannedCall(FromRouter, name, None), next);
      }
    }
  }

  /** Every plan of an honest history is sound. */
  lemma PlanIsSound(desk: Desk, req: Request)
    requires HonestHistory(desk, req)
    ensures Sound(desk, req, Plan(desk, req))
  {
    if Ceiling(req) == 0 {
      assert req.ran + Keys([]) == req.ran;
    } else {
      RouterPlanIsSound(desk, req, |req.routerNames|);
    }
  }

  // ---------------------------------------------------------------------------
  // Nothing eligible is starved, and every refusal has its reason
  // ---------------------------------------------------------------------------

  /** A later plan runs what an earlier one ran, and blocks and rejects what it did. */
  ghost predicate Extends(p: ToolPlan, q: ToolPlan) {
    p.calls <= q.calls && p.blocked <= q.blocked && p.rejected <= q.rejected
  }

  lemma ExtendsKeeps(req: Request, p: ToolPlan, q: ToolPlan, key: string, name: string)
    requires Extends(p, q)
    ensures AlreadyRan(req, p, key) ==> AlreadyRan(req, q, key)
    ensures name in Names(p.calls) ==> name in Names(q.calls)
    ensures OverLimit(req, p, name) ==> OverLimit(req, q, name)
  {
    var more := q.calls[|p.calls|..];
    assert q.calls == p.calls + more;
    assert Keys(q.calls) == Keys(p.calls) + Keys(more);
    assert Names(q.calls) == Names(p.calls) + Names(more);
    CountAppend(Names(p.calls), Names(more), name);
  }

  /** Some call of this pass gives the desk a reason to reject the name. */
  ghost predicate Refusable(desk: Desk, req: Request, name: string) {
    exists m :: m in req.modelCalls && m.name == name
      && (name !in desk.catalog || !desk.parses(name, m.arguments))
  }

  /** The planner has dealt with the model's call. */
  ghost predicate Settled(desk: Desk, req: Request, p: ToolPlan, m: ModelCall) {
    || |p.calls| >= Ceiling(req)
    || m.name !in desk.catalog || Refusable(desk, req, m.name)
    || AlreadyRan(req, p, ToolCallKey(m.name, Some(m.arguments)))
    || DeadReason(req.dead, m.name) != "" || OverLimit(req, p, m.name)
  }

  /** A refusal in the plan names a tool that is dead, spent, unknown or asked with unreadable arguments. */
  ghost predicate Explained(desk: Desk, req: Request, p: ToolPlan) {
    && |p.rejected| <= Ceiling(req)
    && (forall b :: b in p.blocked ==>
          && b == ToolResult(b.name, false, "", true, None)
          && (DeadReason(req.dead, b.name) != "" || OverLimit(req, p, b.name)))
    && (forall r :: r in p.rejected ==>
          && r == ToolResult(r.name, false, "", false, None)
          && (Refusable(desk, req, r.name) || (r.name == "unknown" && Refusable(desk, req, ""))))
  }

  lemma StepExtends(desk: Desk, req: Request, s: Planning, call: ModelCall)
    ensures Extends(s.plan, ConsiderModelCall(desk, req, s, call).plan)
  {
  }

  lemma SettledStays(desk: Desk, req: Request, p: ToolPlan, q: ToolPlan, m: ModelCall)
    requires Extends(p, q) && Settled(desk, req, p, m)
    ensures Settled(desk, req, q, m)
  {
    ExtendsKeeps(req, p, q, ToolCallKey(m.name, Some(m.arguments)), m.name);
  }

  lemma StepSettles(desk: Desk, req: Request, s: Planning, call: ModelCall)
    requires call in req.modelCalls
    requires forall name :: name in s.refused ==> Refusable(desk, req, name)
    requires Explained(desk, req, s.plan)
    ensures var t := ConsiderModelCall(desk, req, s, call);
            && Settled(desk, req, t.plan, call)
            && (forall name :: name in t.refused ==> Refusable(desk, req, name))
            && Explained(desk, req, t.plan)
  {
    var t := ConsiderModelCall(desk, req, s, call);
    if t.plan.calls != s.plan.calls {
      PrefixTwice(call.arguments, KEY_LENGTH);
      var c := t.plan.calls[|s.plan.calls|];
      assert Keys(t.plan.calls)[|s.plan.calls|] == ToolCallKey(call.name, Some(call.arguments));
    }
    forall b | b in t.plan.blocked
      ensures DeadReason(req.dead, b.name) != "" || OverLimit(req, t.plan, b.name)
    {
      ExtendsKeeps(req, s.plan, t.plan, "", b.name);
    }
  }

  lemma {:induction false} ModelPlanSettles(desk: Desk, req: Request, n: nat)
    requires n <= |req.modelCalls|
    ensures var s := PlanModelCalls(desk, req, n);
            && (forall i :: 0 <= i < n ==> Settled(desk, req, s.plan, req.modelCalls[i]))
            && (forall name :: name in s.refused ==> Refusable(desk, req, name))
            && Explained(desk, req, s.plan)
  {
    hide ConsiderModelCall, Settled;
    if n > 0 {
      ModelPlanSettles(desk, req, n - 1);
      var s := PlanModelCalls(desk, req, n - 1);
      var t := PlanModelCalls(desk, req, n);
      StepExtends(desk, req, s, req.modelCalls[n - 1]);
      StepSettles(desk, req, s, req.modelCalls[n - 1]);
      forall i | 0 <= i < n ensures Settled(desk, req, t.plan, req.modelCalls[i]) {
        if i < n - 1 { SettledStays(desk, req, s.plan, t.plan, req.modelCalls[i]); }
      }
    }
  }

  ghost predicate RouterSettled(desk: Desk, req: Request, p: ToolPlan, name: string) {
    || |p.calls| >= Ceiling(req)
    || name !in desk.catalog || name in req.ranTools || name in Names(p.calls)
    || DeadReason(req.dead, name) != "" || OverLimit(req, p, name)
  }

  lemma {:induction false} RouterPlanSettles(desk: Desk, req: Request, n: nat)
    requires n <= |req.routerNames|
    ensures var p := PlanRouterNames(desk, req, n);
            && Extends(PlanModelCalls(desk, req, |req.modelCalls|).plan, p)
            && (forall i :: 0 <= i < n ==> RouterSettled(desk, req, p, req.routerNames[i]))
  {
    if n > 0 {
      RouterPlanSettles(desk, req, n - 1);
      var p, q := PlanRouterNames(desk, req, n - 1), PlanRouterNames(desk, req, n);
      var name := req.routerNames[n - 1];
      if q != p {
        assert Names(q.calls)[|p.calls|] == name;
      }
      forall i | 0 <= i < n ensures RouterSettled(desk, req, q, req.routerNames[i]) {
        if i < n - 1 { ExtendsKeeps(req, p, q, "", req.routerNames[i]); }
      }
    }
  }

  /**
   Nothing eligible is starved: with room left in the plan, every call of the model
   that names a live tool under its limit has run or will, and so does every router
   pick; and each refusal the plan reports has its reason.
   */
  lemma PlanIsComplete(desk: Desk, req: Request)
    requires Ceiling(req) > 0
    ensures var p := Plan(desk, req);
            && (forall m :: m in req.modelCalls ==> Settled(desk, req, p, m))
            && (forall name :: name in req.routerNames ==> RouterSettled(desk, req, p, name))
            && Explained(desk, req, p)
  {
    var s := PlanModelCalls(desk, req, |req.modelCalls|);
    var p := Plan(desk, req);
    ModelPlanSettles(desk, req, |req.modelCalls|);
    RouterPlanSettles(desk, req, |req.routerNames|);
    forall m | m in req.modelCalls ensures Settled(desk, req, p, m) {
      SettledStays(desk, req, s.plan, p, m);
    }
    RouterKeepsRefusals(desk, req, |req.routerNames|);
    forall b | b in p.blocked
      ensures DeadReason(req.dead, b.name) != "" || OverLimit(req, p, b.name)
    {
      ExtendsKeeps(req, s.plan, p, "", b.name);
    }
  }

  /** What one call of the model does to the plan, with room left and none. */
  lemma CallFaresExactly(desk: Desk, req: Request, s: Planning, call: ModelCall)
    ensures
      var p, name, t := s.plan, call.name, ConsiderModelCall(desk, req, s, call);
      var q := t.plan;
      var room, known := |p.calls| < 3 && |p.calls| < req.remaining, name in desk.catalog;
      var key := ToolCallKey(name, Some(call.arguments));
      var again := key in req.ran || key in Keys(p.calls);
      var spent := name == "web.search" && Count(req.ranTools, name) + Count(Names(p.calls), name) >= 2;
      var barred := spent || (name in req.dead && req.dead[name] != "");
      var untried := room && known && !again && name !in s.refused;
      var refused := untried && !barred && !desk.parses(name, call.arguments);
      var unknown := room && !known && name !in s.refused;
      var heard := |p.rejected| < 3 && |p.rejected| < req.remaining;
      && q.repeated == p.repeated + (if room && known && again then 1 else 0)
      && q.blocked == p.blocked + (if untried && barred then [ToolResult(name, false, "", true, None)] else [])
      && q.rejected == p.rejected
           + (if unknown && heard then [ToolResult(if name == "" then "unknown" else name, false, "", false, None)]
              else if refused && heard then [ToolResult(name, false, "", false, None)] else [])
      && t.refused == s.refused + (if refused || (unknown && heard) then {name} else {})
      && q.calls == p.calls
           + (if untried && !barred && !refused then [PlannedCall(FromModel, name, Some(Told(call.arguments)))] else [])
  {
    hide Count, ToolCallKey;
  }

  /** The name was rejected, or there were as many rejections as the plan may hold. */
  ghost predicate IsHeard(desk: Desk, req: Request, p: ToolPlan, name: string) {
    || |p.rejected| >= 3 || |p.rejected| >= req.remaining
    || ToolResult(if name == "" && name !in desk.catalog then "unknown" else name, false, "", false, None) in p.rejected
  }

  /** The call ran before or is planned, or its refusal is in the plan. */
  ghost predicate IsAnswered(desk: Desk, req: Request, p: ToolPlan, m: ModelCall) {
    || (m.name in desk.catalog && AlreadyRan(req, p, ToolCallKey(m.name, Some(m.arguments))))
    || IsHeard(desk, req, p, m.name)
    || ToolResult(m.name, false, "", true, None) in p.blocked
  }

  lemma AnsweredStays(desk: Desk, req: Request, p: ToolPlan, q: ToolPlan, m: ModelCall)
    requires Extends(p, q)
    ensures IsHeard(desk, req, p, m.name) ==> IsHeard(desk, req, q, m.name)
    ensures IsAnswered(desk, req, p, m) ==> IsAnswered(desk, req, q, m)
  {
    ExtendsKeeps(req, p, q, ToolCallKey(m.name, Some(m.arguments)), m.name);
    hide ToolCallKey, AlreadyRan;
  }

  lemma StepAnswers(desk: Desk, req: Request, s: Planning, call: ModelCall)
    requires |s.plan.calls| < 3 && |s.plan.calls| < req.remaining
    requires call.name in s.refused ==> IsHeard(desk, req, s.plan, call.name)
    ensures var t := ConsiderModelCall(desk, req, s, call);
            && IsAnswered(desk, req, t.plan, call)
            && (call.name in t.refused ==> IsHeard(desk, req, t.plan, call.name))
            && t.refused <= s.refused + {call.name}
  {
    PrefixTwice(call.arguments, 600);
    var t := ConsiderModelCall(desk, req, s, call);
    if t.plan.calls != s.plan.calls {
      assert Keys(t.plan.calls)[|s.plan.calls|] == ToolCallKey(call.name, Some(call.arguments));
    }
    hide OverLimit, DeadReason, ToolCallKey, Prefix;
  }

  lemma {:induction false} ModelPlanAnswers(desk: Desk, req: Request, n: nat)
    requires n <= |req.modelCalls|
    requires var calls := PlanModelCalls(desk, req, n).plan.calls; |calls| < 3 && |calls| < req.remaining
    ensures var s := PlanModelCalls(desk, req, n);
            && (forall i :: 0 <= i < n ==> IsAnswered(desk, req, s.plan, req.modelCalls[i]))
            && (forall name :: name in s.refused ==> IsHeard(desk, req, s.plan, name))
  {
    if n > 0 {
      var s, t, call := PlanModelCalls(desk, req, n - 1), PlanModelCalls(desk, req, n), req.modelCalls[n - 1];
      StepExtends(desk, req, s, call);
      hide ConsiderModelCall, IsHeard, IsAnswered;
      ModelPlanAnswers(desk, req, n - 1);
      StepAnswers(desk, req, s, call);
      forall i | 0 <= i < n - 1 ensures IsAnswered(desk, req, t.plan, req.modelCalls[i]) {
        AnsweredStays(desk, req, s.plan, t.plan, req.modelCalls[i]);
      }
      forall name | name in t.refused ensures IsHeard(desk, req, t.plan, name) {
        if name in s.refused {
          AnsweredStays(desk, req, s.plan, t.plan, ModelCall(name, ""));
        }
      }
    }
  }

  /**
   No request is ignored: with room left in the plan, each call of the model has run, is planned, or is
   refused aloud.
   */
  lemma NoCallIsIgnored(desk: Desk, req: Request, m: ModelCall)
    requires m in req.modelCalls && |Plan(desk, req).calls| < 3 && |Plan(desk, req).calls| < req.remaining
    ensures IsAnswered(desk, req, Plan(desk, req), m)
  {
    var s := PlanModelCalls(desk, req, |req.modelCalls|);
    RouterPlanSettles(desk, req, |req.routerNames|);
    hide IsAnswered, PlanModelCalls, PlanRouterNames;
    ModelPlanAnswers(desk, req, |req.modelCalls|);
    AnsweredStays(desk, req, s.plan, Plan(desk, req), m);
  }

  lemma RouterKeepsRefusals(desk: Desk, req: Request, n: nat)
    requires n <= |req.routerNames|
    ensures var s, p := PlanModelCalls(desk, req, |req.modelCalls|).plan, PlanRouterNames(desk, req, n);
            p.blocked == s.blocked && p.rejected == s.rejected && p.repeated == s.repeated
  {
  }

  /** A valid call of a live tool under its limit, with a key of its own, is planned. */
  lemma NewWorkIsPlanned(desk: Desk, req: Request, s: Planning, m: ModelCall)
    requires |s.plan.calls| < 3 && |s.plan.calls| < req.remaining && s.refused == {}
    requires m.name in desk.catalog && desk.parses(m.name, m.arguments)
    requires m.name in req.dead ==> req.dead[m.name] == ""
    requires m.name == "web.search" ==> Count(req.ranTools, m.name) + Count(Names(s.plan.calls), m.name) < 2
    requires ToolCallKey(m.name, Some(m.arguments)) !in req.ran + Keys(s.plan.calls)
    ensures ConsiderModelCall(desk, req, s, m) == s.(plan := s.plan.(
              calls := s.plan.calls + [PlannedCall(FromModel, m.name, Some(Told(m.arguments)))]))
  {
    CallFaresExactly(desk, req, s, m);
    hide ConsiderModelCall, Count, Told, ToolCallKey;
  }

  lemma OneSearch(req: Request, first: PlannedCall)
    requires first.name !in req.ranTools
    ensures Count(req.ranTools, first.name) + Count(Names([first]), first.name) == 1
    ensures Count(req.ranTools, first.name) + Count(Names([]), first.name) == 0
  {
    CountAbsent(req.ranTools, first.name);
    assert Names([first]) == [] + [first.name];
    CountSnoc([], first.name, first.name);
  }

  lemma TwoCallsPlan(desk: Desk, req: Request)
    requires |req.modelCalls| == 2
    ensures PlanModelCalls(desk, req, 2) ==
      ConsiderModelCall(desk, req,
        ConsiderModelCall(desk, req, Planning(ToolPlan([], [], [], 0), {}), req.modelCalls[0]), req.modelCalls[1])
  {
    hide ConsiderModelCall;
    assert PlanModelCalls(desk, req, 0) == Planning(ToolPlan([], [], [], 0), {});
    var none := PlanModelCalls(desk, req, 0);
    assert PlanModelCalls(desk, req, 1) == ConsiderModelCall(desk, req, none, req.modelCalls[0]);
  }

  /** The router leaves what the model's calls made of the plan. */
  lemma RouterOnlyAdds(desk: Desk, req: Request)
    requires req.remaining > 0
    ensures var p, q := PlanModelCalls(desk, req, |req.modelCalls|).plan, Plan(desk, req);
            p.calls <= q.calls && q.blocked == p.blocked && q.rejected == p.rejected && q.repeated == p.repeated
  {
    RouterPlanSettles(desk, req, |req.routerNames|);
    RouterKeepsRefusals(desk, req, |req.routerNames|);
    hide PlanModelCalls, PlanRouterNames, RouterSettled;
  }

  /** The same tool with new arguments is new work: two valid calls that differ where keys look are both planned. */
  lemma NewArgumentsAreNewWork(desk: Desk, req: Request, name: string, x: string, y: string)
    requires req.modelCalls == [ModelCall(name, x), ModelCall(name, y)] && req.remaining >= 2
    requires ':' !in name && name in desk.catalog && desk.parses(name, x) && desk.parses(name, y)
    requires name in req.dead ==> req.dead[name] == ""
    requires name == "web.search" ==> name !in req.ranTools
    requires ToolCallKey(name, Some(x)) !in req.ran && ToolCallKey(name, Some(y)) !in req.ran
    requires Told(x) != Told(y)
    ensures [PlannedCall(FromModel, name, Some(Told(x))), PlannedCall(FromModel, name, Some(Told(y)))]
            <= Plan(desk, req).calls
    ensures Plan(desk, req).repeated == 0 && Plan(desk, req).blocked == [] && Plan(desk, req).rejected == []
  {
    var none, first := Planning(ToolPlan([], [], [], 0), {}), PlannedCall(FromModel, name, Some(Told(x)));
    if name !in req.ranTools {
      OneSearch(req, first);
    }
    KeysMatchExactly(name, x, name, y);
    KeysMatchExactly(name, Told(x), name, x);
    assert Keys([first]) == [ToolCallKey(name, Some(x))];
    hide Plan, ConsiderModelCall, PlanModelCalls, PlanRouterNames, ToolCallKey, Told, Count;
    TwoCallsPlan(desk, req);
    RouterOnlyAdds(desk, req);
    NewWorkIsPlanned(desk, req, none, ModelCall(name, x));
    NewWorkIsPlanned(desk, req, Planning(ToolPlan([first], [], [], 0), {}), ModelCall(name, y));
  }

  // ---------------------------------------------------------------------------
  // The planner and the runner, as they run
  // ---------------------------------------------------------------------------

  /** Plan one pass, by the loops of the source. */
  method PlanToolCalls(desk: Desk, req: Request) returns (plan: ToolPlan)
    ensures plan == Plan(desk, req)
  {
    hide Count, Limit, DeadReason, ToolCallKey, Prefix;
    var ceiling := Ceiling(req);
    var calls, rejected, blocked, repeated := [], [], [], 0;
    if ceiling == 0 {
      return ToolPlan(calls, rejected, blocked, repeated);
    }
    var executedKeys := set k | k in req.ran;
    var executedNames := set n | n in req.ranTools;
    var rejectedNames := {};
    var i := 0;
    while i < |req.modelCalls|
      invariant 0 <= i <= |req.modelCalls|
      invariant PlanModelCalls(desk, req, i) == Planning(ToolPlan(calls, rejected, blocked, repeated), rejectedNames)
      invariant forall k :: k in executedKeys <==> k in req.ran || k in Keys(calls)
      invariant forall n :: n in executedNames <==> n in req.ranTools || n in Names(calls)
    {
      var call := req.modelCalls[i];
      if |calls| >= ceiling {
        FullPlanStays(desk, req, i, |req.modelCalls|);
        break;
      }
      i := i + 1;
      var name, key := call.name, ToolCallKey(call.name, Some(call.arguments));
      if name !in desk.catalog {
        if |rejected| >= ceiling || name in rejectedNames {
          continue;
        }
        rejectedNames := rejectedNames + {name};
        rejected := rejected + [Rejection(if name == "" then "unknown" else name)];
        continue;
      }
      if key in executedKeys {
        repeated := repeated + 1;
        continue;
      }
      if name in rejectedNames {
        continue;
      }
      if DeadReason(req.dead, name) != "" {
        blocked := blocked + [BlockedCall(name)];
        continue;
      }
      var limit := Limit(name);
      if limit.Some? && Count(req.ranTools, name) + Count(Names(calls), name) >= limit.value {
        blocked := blocked + [BlockedCall(name)];
        continue;
      }
      if !desk.parses(name, call.arguments) {
        rejectedNames := rejectedNames + {name};
        if |rejected| < ceiling {
          rejected := rejected + [Rejection(name)];
        }
        continue;
      }
      executedKeys := executedKeys + {key};
      executedNames := executedNames + {name};
      AppendRecords(calls, PlannedCall(FromModel, name, Some(Prefix(call.arguments, KEY_LENGTH))));
      calls := calls + [PlannedCall(FromModel, name, Some(Prefix(call.arguments, KEY_LENGTH)))];
    }

    i := 0;
    while i < |req.routerNames|
      invariant 0 <= i <= |req.routerNames|
      invariant PlanRouterNames(desk, req, i) == ToolPlan(calls, rejected, blocked, repeated)
      invariant forall n :: n in executedNames <==> n in req.ranTools || n in Names(calls)
    {
      var name := req.routerNames[i];
      if |calls| >= ceiling {
        FullRouterPlanStays(desk, req, i, |req.routerNames|);
        break;
      }
      i := i + 1;
      if name !in desk.catalog || name in executedNames {
        continue;
      }
      if DeadReason(req.dead, name) != "" {
        continue;
      }
      var limit := Limit(name);
      if limit.Some? && Count(req.ranTools, name) + Count(Names(calls), name) >= limit.value {
        continue;
      }
      executedNames := executedNames + {name};
      AppendRecords(calls, PlannedCall(FromRouter, name, None));
      calls := calls + [PlannedCall(FromRouter, name, None)];
    }
    return ToolPlan(calls, rejected, blocked, repeated);
  }

  lemma AppendRecords(calls: seq<PlannedCall>, c: PlannedCall)
    ensures Keys(calls + [c]) == Keys(calls) + [KeyOf(c)]
    ensures Names(calls + [c]) == Names(calls) + [c.name]
    ensures c.args.Some? ==> forall x :: c.args == Some(Prefix(x, KEY_LENGTH)) ==>
            KeyOf(c) == ToolCallKey(c.name, Some(x))
  {
  }

  lemma {:induction false} FullPlanStays(desk: Desk, req: Request, i: nat, n: nat)
    requires i <= n <= |req.modelCalls| && |PlanModelCalls(desk, req, i).plan.calls| >= Ceiling(req)
    ensures PlanModelCalls(desk, req, n) == PlanModelCalls(desk, req, i)
  {
    if i < n { FullPlanStays(desk, req, i, n - 1); }
  }

  lemma {:induction false} FullRouterPlanStays(desk: Desk, req: Request, i: nat, n: nat)
    requires i <= n <= |req.routerNames| && |PlanRouterNames(desk, req, i).calls| >= Ceiling(req)
    ensures PlanRouterNames(desk, req, n) == PlanRouterNames(desk, req, i)
  {
    if i < n { FullRouterPlanStays(desk, req, i, n - 1); }
  }

  // ---------------------------------------------------------------------------
  // Running a plan
  // ---------------------------------------------------------------------------

  /** What the desk reports while a turn runs, in the order it happened. */
  datatype TurnEvent =
    | Stage(stage: string)
    | ToolStart(id: nat, name: string, source: ToolSource, args: Option<string>)
    | ToolEnd(id: nat, name: string, ok: bool)
    | Reasoning(thought: string)
    | ReplyDelta(text: string)
    | ReplyReset

  /** A call as it is announced: empty arguments are not shown. */
  function Announced(c: PlannedCall): PlannedCall {
    if c.args == Some("") then c.(args := None) else c
  }

  /** The announcements of the first n calls, each with the id start + its place, begun and then ended. */
  function ToolEvents(desk: Desk, calls: seq<PlannedCall>, n: nat, start: nat, tools: nat -> ToolResult): seq<TurnEvent>
    requires n <= |calls|
  {
    if n == 0 then []
    else
      var before, c, id := ToolEvents(desk, calls, n - 1, start, tools), calls[n - 1], start + n - 1;
      if c.name !in desk.catalog then before
      else before + [ToolStart(id, c.name, c.source, Announced(c).args), ToolEnd(id, tools(id).name, tools(id).ok)]
  }

  function Executed(desk: Desk, calls: seq<PlannedCall>, n: nat, start: nat, tools: nat -> ToolResult): seq<ToolResult>
    requires n <= |calls|
  {
    if n == 0 then []
    else
      var before := Executed(desk, calls, n - 1, start, tools);
      if calls[n - 1].name !in desk.catalog then before else before + [tools(start + n - 1)]
  }

  /** Rejections under names that no execution answered. */
  function Unanswered(rejected: seq<ToolResult>, executed: set<string>): seq<ToolResult> {
    if rejected == [] then []
    else
      var last := rejected[|rejected| - 1];
      Unanswered(rejected[..|rejected| - 1], executed) + if last.name in executed then [] else [last]
  }

  function ResultNames(results: seq<ToolResult>): set<string> {
    set r | r in results :: r.name
  }

  /** The calls of a plan in sequence; the k-th of the turn is answered by tools(k). */
  method RunToolPlan(desk: Desk, plan: ToolPlan, start: nat, tools: nat -> ToolResult)
    returns (results: seq<ToolResult>, events: seq<TurnEvent>)
    ensures var ran := Executed(desk, plan.calls, |plan.calls|, start, tools);
            results == ran + plan.blocked + Unanswered(plan.rejected, ResultNames(ran))
    ensures events == ToolEvents(desk, plan.calls, |plan.calls|, start, tools)
  {
    results, events := [], [];
    for index := 0 to |plan.calls|
      invariant results == Executed(desk, plan.calls, index, start, tools)
      invariant events == ToolEvents(desk, plan.calls, index, start, tools)
    {
      var call := plan.calls[index];
      if call.name !in desk.catalog {
        continue;
      }
      events := events + [ToolStart(start + index, call.name, call.source, Announced(call).args)];
      var result := tools(start + index);
      events := events + [ToolEnd(start + index, result.name, result.ok)];
      results := results + [result];
    }
    var executed := ResultNames(results);
    var kept := [];
    for i := 0 to |plan.rejected|
      invariant kept == Unanswered(plan.rejected[..i], executed)
    {
      assert plan.rejected[..i + 1][..i] == plan.rejected[..i];
      if plan.rejected[i].name !in executed {
        kept := kept + [plan.rejected[i]];
      }
    }
    assert plan.rejected[..|plan.rejected|] == plan.rejected;
    results := results + plan.blocked + kept;
  }

  lemma {:induction false} ExecutedAreAnswers(desk: Desk, calls: seq<PlannedCall>, n: nat, start: nat,
                                              tools: nat -> ToolResult, r: ToolResult)
    requires n <= |calls|
    ensures r in Executed(desk, calls, n, start, tools) ==> exists k: nat :: r == tools(k)
  {
    if n > 0 {
      ExecutedAreAnswers(desk, calls, n - 1, start, tools, r);
      assert tools(start + n - 1) == tools(start + n - 1);
    }
  }

  lemma {:induction false} UnansweredAreRejected(rejected: seq<ToolResult>, executed: set<string>, r: ToolResult)
    ensures r in Unanswered(rejected, executed) ==> r in rejected
  {
    if rejected != [] {
      UnansweredAreRejected(rejected[..|rejected| - 1], executed, r);
    }
  }

  /** A rejection is heard exactly when no execution answered under its name, and rejections stay in order. */
  lemma {:induction false} RejectionsAreHeard(a: seq<ToolResult>, b: seq<ToolResult>, executed: set<string>)
    ensures forall r :: r in Unanswered(a, executed) <==> r in a && r.name !in executed
    ensures Unanswered(a + b, executed) == Unanswered(a, executed) + Unanswered(b, executed)
    decreases |a| + |b|
  {
    if b != [] {
      var last := b[|b| - 1];
      RejectionsAreHeard(a, b[..|b| - 1], executed);
      AppendInit(a, b);
      Associative(Unanswered(a, executed), Unanswered(b[..|b| - 1], executed),
        if last.name in executed then [] else [last]);
    } else {
      AppendNothing(a);
      if a != [] {
        RejectionsAreHeard(a[..|a| - 1], [], executed);
        SplitLast(a);
      }
    }
  }

  lemma {:induction false} ExecutedAll(desk: Desk, calls: seq<PlannedCall>, n: nat, start: nat,
                                       tools: nat -> ToolResult)
    requires n <= |calls| && forall c :: c in calls ==> c.name in desk.catalog
    ensures var ran := Executed(desk, calls, n, start, tools);
            |ran| == n && forall i :: 0 <= i < n ==> ran[i] == tools(start + i)
  {
    if n > 0 { ExecutedAll(desk, calls, n - 1, start, tools); }
  }

  /** Numbering on from an earlier pass is numbering the whole turn. */
  lemma {:induction false} EventsContinue(desk: Desk, a: seq<PlannedCall>, b: seq<PlannedCall>, n: nat,
                                          tools: nat -> ToolResult)
    requires n <= |b|
    ensures ToolEvents(desk, a + b, |a| + n, 0, tools)
         == ToolEvents(desk, a, |a|, 0, tools) + ToolEvents(desk, b, n, |a|, tools)
  {
    if n == 0 {
      EventsOfPrefix(desk, a, b, |a|, tools);
    } else {
      EventsContinue(desk, a, b, n - 1, tools);
    }
  }

  lemma {:induction false} EventsOfPrefix(desk: Desk, a: seq<PlannedCall>, b: seq<PlannedCall>, n: nat,
                                          tools: nat -> ToolResult)
    requires n <= |a|
    ensures ToolEvents(desk, a + b, n, 0, tools) == ToolEvents(desk, a, n, 0, tools)
  {
    if n > 0 { EventsOfPrefix(desk, a, b, n - 1, tools); }
  }
}
