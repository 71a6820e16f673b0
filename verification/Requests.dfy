/** What a client may ask, and the strict parser of request bodies. */
module Requests {
  import opened Types
  import opened Json
  import opened Decimal
  import opened Records

  /** The plan an effect is asked for. */
  datatype Effect = Effect(schema: int, hash: string)

  /** The plan a redemption presents. */
  datatype Plan = Plan(verb: string, resource: string, schema: int, hash: string)

  datatype Request =
    | Open(rec: Members, effect: Option<Effect>)
    | WriteOutcome(binding: string, rec: Members)
    | EmitRecord(phase: string, rec: Members)
    | AskCapabilities
    | RedeemToken(token: string, principal: nat, plan: Plan)

  const OPEN := "open_intent"
  const OUTCOME := "write_outcome"
  const EMIT := "emit"
  const CAPABILITIES := "capabilities"
  const REDEEM := "redeem_receipt"

  const MAX_DEPTH := 8
  const BINDING_STR_MAX := 128
  const REDEEM_STR_MAX := 128
  const PLAN_SCHEMA := 1
  const TOKEN_DIGITS := 32

  /** No more than n containers inside one another. */
  predicate DepthAtMost(j: Json, n: nat) {
    match j
    case Arr(elems) => n > 0 && forall i :: 0 <= i < |elems| ==> DepthAtMost(elems[i], n - 1)
    case Obj(members) => n > 0 && forall k :: k in members ==> DepthAtMost(members[k], n - 1)
    case _ => true
  }

  predicate ChildOf(c: Json, j: Json) {
    (j.Arr? && c in j.elems) || (j.Obj? && c in j.members.Values)
  }

  /** n containers, each inside the one before, the first being the tree itself. */
  ghost predicate Chain(j: Json, n: nat) {
    n == 0 || ((j.Arr? || j.Obj?) && (n == 1 || exists c :: ChildOf(c, j) && Chain(c, n - 1)))
  }

  lemma {:induction false} DepthIsChain(j: Json, n: nat)
    ensures DepthAtMost(j, n) <==> !Chain(j, n + 1)
    decreases n
  {
    if n > 0 && (j.Arr? || j.Obj?) {
      forall c | ChildOf(c, j) ensures DepthAtMost(c, n - 1) <==> !Chain(c, n) { DepthIsChain(c, n - 1); }
      if j.Arr? {
        assert forall i :: 0 <= i < |j.elems| ==> ChildOf(j.elems[i], j);
      } else {
        assert forall k :: k in j.members ==> ChildOf(j.members[k], j);
      }
    }
  }

  // ---- the grammar, from the request to its tree ----

  function EffectJson(e: Effect): Json {
    Obj(map[RequiredKey := Bool(true), PlanSchema := Int(e.schema), PlanHash := Str(e.hash)])
  }

  function PlanJson(p: Plan): Json {
    Obj(map[Operation := Str(p.verb), ResourceKey := Str(p.resource), PlanSchema := Int(p.schema),
            PlanHash := Str(p.hash)])
  }

  function RequestMembers(req: Request): Members {
    match req
    case Open(rec, None) => map[TypeKey := Str(OPEN), RecordKey := Obj(rec)]
    case Open(rec, Some(e)) => map[TypeKey := Str(OPEN), RecordKey := Obj(rec), EffectKey := EffectJson(e)]
    case WriteOutcome(binding, rec) => map[TypeKey := Str(OUTCOME), BindingKey := Str(binding), RecordKey := Obj(rec)]
    case EmitRecord(phase, rec) => map[TypeKey := Str(EMIT), PhaseKey := Str(phase), RecordKey := Obj(rec)]
    case AskCapabilities => map[TypeKey := Str(CAPABILITIES)]
    case RedeemToken(token, principal, plan) =>
      map[TypeKey := Str(REDEEM), EffectReceipt := Str(token), PrincipalUid := Int(principal),
          EffectKey := PlanJson(plan)]
  }

  predicate EffectOk(e: Effect) { e.schema == 1 && IsHexString(e.hash, 64) }

  predicate PlanOk(p: Plan) {
    p.schema == 1 && IsHexString(p.hash, 64) && |p.verb| < 128 && |p.resource| < 128
  }

  predicate WellFormed(req: Request) {
    match req
    case Open(rec, effect) => RecordValid(rec) && (effect.Some? ==> EffectOk(effect.value))
    case WriteOutcome(binding, rec) => RecordValid(rec) && |binding| < 128
    case EmitRecord(phase, rec) =>
      RecordValid(rec) && (phase == PHASE_PREVIEW || phase == PHASE_NOOP) && !ClaimsEffect(rec)
    case AskCapabilities => true
    case RedeemToken(token, principal, plan) =>
      IsHexString(token, 32) && principal < 0x1_0000_0000 && PlanOk(plan)
  }

  // ---- the parser, from the tree to the request ----

  datatype Parse = Parsed(req: Request) | NotWellFormed | UnknownRequest

  function GetRecord(root: Members): Option<Members> {
    match Get(root, RecordKey)
    case Some(Obj(rec)) => if RecordValid(rec) then Some(rec) else None
    case _ => None
  }

  function GetEffect(j: Json): Option<Effect> {
    if !j.Obj? || !OnlyKeys(j.members, {RequiredKey, PlanSchema, PlanHash}) then None
    else
      var required :- GetBool(j.members, RequiredKey);
      var schema :- GetInt(j.members, PlanSchema);
      var hash :- GetHex64(j.members, PlanHash);
      if !required || schema != PLAN_SCHEMA then None else Some(Effect(schema, hash))
  }

  function GetPlan(root: Members): Option<Plan> {
    match Get(root, EffectKey)
    case Some(Obj(e)) =>
      if !OnlyKeys(e, {Operation, ResourceKey, PlanSchema, PlanHash}) then None
      else
        var verb :- GetBounded(e, Operation, REDEEM_STR_MAX, false);
        var resource :- GetBounded(e, ResourceKey, REDEEM_STR_MAX, false);
        var schema :- GetInt(e, PlanSchema);
        var hash :- GetHex64(e, PlanHash);
        if schema != PLAN_SCHEMA then None else Some(Plan(verb, resource, schema, hash))
    case _ => None
  }

  function OrInvalid(r: Option<Request>): Parse { if r.Some? then Parsed(r.value) else NotWellFormed }

  function ParseOpen(root: Members): Option<Request> {
    var rec :- GetRecord(root);
    if !OnlyKeys(root, {TypeKey, RecordKey, EffectKey}) then None
    else if EffectKey !in root then Some(Open(rec, None))
    else
      var e :- GetEffect(root[EffectKey]);
      Some(Open(rec, Some(e)))
  }

  function ParseOutcome(root: Members): Option<Request> {
    var rec :- GetRecord(root);
    var binding :- GetBounded(root, BindingKey, BINDING_STR_MAX, false);
    if !OnlyKeys(root, {TypeKey, BindingKey, RecordKey}) then None else Some(WriteOutcome(binding, rec))
  }

  function ParseEmit(root: Members): Option<Request> {
    var rec :- GetRecord(root);
    var phase :- GetStr(root, PhaseKey);
    if !OnlyKeys(root, {TypeKey, PhaseKey, RecordKey}) || (phase != PHASE_PREVIEW && phase != PHASE_NOOP) ||
       ClaimsEffect(rec)
    then None
    else Some(EmitRecord(phase, rec))
  }

  function ParseRedeem(root: Members): Option<Request> {
    var token :- GetStr(root, EffectReceipt);
    var principal :- GetInt(root, PrincipalUid);
    var plan :- GetPlan(root);
    if !OnlyKeys(root, {TypeKey, EffectReceipt, PrincipalUid, EffectKey}) || !IsHexString(token, TOKEN_DIGITS) ||
       principal < 0 || principal >= UID_LIMIT
    then None else Some(RedeemToken(token, principal, plan))
  }

  function ParseTyped(root: Members, t: string): Parse {
    if t == OPEN then OrInvalid(ParseOpen(root))
    else if t == OUTCOME then OrInvalid(ParseOutcome(root))
    else if t == EMIT then OrInvalid(ParseEmit(root))
    else if t == CAPABILITIES then (if OnlyKeys(root, {TypeKey}) then Parsed(AskCapabilities) else NotWellFormed)
    else if t == REDEEM then OrInvalid(ParseRedeem(root))
    else UnknownRequest
  }

  function ParseRequest(j: Json): Parse {
    if !j.Obj? || !DepthAtMost(j, MAX_DEPTH) then NotWellFormed
    else
      match GetStr(j.members, TypeKey)
      case None => NotWellFormed
      case Some(t) => ParseTyped(j.members, t)
  }

  // ---- they are inverse ----

  lemma TypesDistinct()
    ensures OPEN != OUTCOME && OPEN != EMIT && OPEN != CAPABILITIES && OPEN != REDEEM && OUTCOME != EMIT
    ensures OUTCOME != CAPABILITIES && OUTCOME != REDEEM && EMIT != CAPABILITIES && EMIT != REDEEM
    ensures CAPABILITIES != REDEEM
  {
    assert |OPEN| == 11 && |OUTCOME| == 13 && |EMIT| == 4 && |CAPABILITIES| == 12 && |REDEEM| == 14;
  }

  lemma EffectExact(j: Json, e: Effect)
    ensures GetEffect(j) == Some(e) <==> EffectOk(e) && j == EffectJson(e)
  {
  }

  lemma PlanExact(root: Members, p: Plan)
    ensures GetPlan(root) == Some(p) <==> PlanOk(p) && Get(root, EffectKey) == Some(PlanJson(p))
  {
    if GetPlan(root) == Some(p) { assert root[EffectKey].members == PlanJson(p).members; }
  }

  lemma OpenExact(root: Members, req: Request)
    requires Get(root, TypeKey) == Some(Str(OPEN))
    ensures ParseOpen(root) == Some(req) <==> req.Open? && WellFormed(req) && root == RequestMembers(req)
  {
    if EffectKey in root {
      if req.Open? && req.effect.Some? { EffectExact(root[EffectKey], req.effect.value); }
      if GetEffect(root[EffectKey]).Some? { EffectExact(root[EffectKey], GetEffect(root[EffectKey]).value); }
    }
  }

  lemma OutcomeExact(root: Members, req: Request)
    requires Get(root, TypeKey) == Some(Str(OUTCOME))
    ensures ParseOutcome(root) == Some(req) <==> req.WriteOutcome? && WellFormed(req) && root == RequestMembers(req)
  {
  }

  lemma EmitExact(root: Members, req: Request)
    requires Get(root, TypeKey) == Some(Str(EMIT))
    ensures ParseEmit(root) == Some(req) <==> req.EmitRecord? && WellFormed(req) && root == RequestMembers(req)
  {
  }

  lemma RedeemExact(root: Members, req: Request)
    requires Get(root, TypeKey) == Some(Str(REDEEM))
    ensures ParseRedeem(root) == Some(req) <==> req.RedeemToken? && WellFormed(req) && root == RequestMembers(req)
  {
    if req.RedeemToken? { PlanExact(root, req.plan); }
  }

  lemma TypeOf(req: Request)
    ensures Get(RequestMembers(req), TypeKey) == Some(Str(
              match req case Open(_, _) => OPEN case WriteOutcome(_, _) => OUTCOME case EmitRecord(_, _) => EMIT
              case AskCapabilities => CAPABILITIES case RedeemToken(_, _, _) => REDEEM))
  {
  }

  lemma TypedExact(root: Members, t: string, req: Request)
    requires Get(root, TypeKey) == Some(Str(t))
    ensures ParseTyped(root, t) == Parsed(req) <==> WellFormed(req) && root == RequestMembers(req)
  {
    TypesDistinct();
    TypeOf(req);
    hide ParseOpen, ParseOutcome, ParseEmit, ParseRedeem, RequestMembers;
    if t == OPEN { OpenExact(root, req); }
    else if t == OUTCOME { OutcomeExact(root, req); }
    else if t == EMIT { EmitExact(root, req); }
    else if t == REDEEM { RedeemExact(root, req); }
    else if t == CAPABILITIES { CapabilitiesExact(root); }
  }

  lemma CapabilitiesExact(root: Members)
    requires Get(root, TypeKey) == Some(Str(CAPABILITIES))
    ensures OnlyKeys(root, {TypeKey}) <==> root == RequestMembers(AskCapabilities)
  {
  }

  /** A body is accepted as a request exactly when it is that request's one
      tree, and the tree has no nine containers inside one another. */
  lemma ParseIsGrammar(j: Json, req: Request)
    ensures ParseRequest(j) == Parsed(req) <==>
            WellFormed(req) && !Chain(j, 9) && j == Obj(RequestMembers(req))
  {
    TypeOf(req);
    DepthIsChain(j, 8);
    hide ParseTyped, RequestMembers, WellFormed, DepthAtMost, Chain;
    if j.Obj? && GetStr(j.members, TypeKey).Some? { TypedExact(j.members, GetStr(j.members, TypeKey).value, req); }
  }

  /** A body is an unknown request exactly when it is a shallow object whose type
      is a string that names none of the five. */
  lemma UnknownIsUnnamed(j: Json)
    ensures ParseRequest(j) == UnknownRequest <==>
            && j.Obj? && !Chain(j, 9) && TypeKey in j.members && j.members[TypeKey].Str?
            && j.members[TypeKey].s !in
               {"open_intent", "write_outcome", "emit", "capabilities", "redeem_receipt"}
  {
    DepthIsChain(j, 8);
    hide ParseOpen, ParseOutcome, ParseEmit, ParseRedeem, DepthAtMost, Chain;
  }
}
