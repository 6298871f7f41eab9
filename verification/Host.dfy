/** The gateway's host layer: every tool call is checked, dispatched and logged. */
module Host {
  import opened Text
  import opened Values
  import opened Core
  import opened Provenance
  import opened Downstream
  import opened Tracing
  import Policy

  /** What a run's host is built from. `schemaError` is the JSON schema check. */
  datatype Env = Env(
    core: Core, principal: string, catalog: Catalog, allowed: seq<ToolSchema>, rules: Policy.Rules,
    schemaError: (ToolSchema, Json) -> Option<string>)

  /** The downstream servers: what they answer to the last of the requests they
      have been sent. Nothing is assumed about it. */
  type Oracle = seq<Dispatch> -> McpReply

  function AllowedSchemas(rules: Policy.Rules, tools: seq<ToolSchema>, principal: string): (r: seq<ToolSchema>)
    ensures forall t :: t in r <==> t in tools && QualifiedName(t) in Policy.AllowedTools(rules, principal)
  {
    if tools == [] then []
    else
      var rest := AllowedSchemas(rules, tools[1..], principal);
      assert tools == [tools[0]] + tools[1..];
      if QualifiedName(tools[0]) in Policy.AllowedTools(rules, principal) then [tools[0]] + rest else rest
  }

  ghost predicate ValidEnv(env: Env)
  {
    && Lawful(env.core) && Downstream.Valid(env.catalog)
    && env.allowed == AllowedSchemas(env.rules, env.catalog.tools, env.principal)
  }

  function Find(tools: seq<ToolSchema>, name: string): (r: Option<ToolSchema>)
    ensures r.Some? ==> r.value in tools && QualifiedName(r.value) == name
    ensures r.None? <==> forall t | t in tools :: QualifiedName(t) != name
  {
    if tools == [] then None
    else if QualifiedName(tools[0]) == name then Some(tools[0])
    else
      assert tools == [tools[0]] + tools[1..];
      Find(tools[1..], name)
  }

  function TableToJson(core: Core, args: LuaTable): Result<Json>
  {
    match core.canonical(Table(args))
    case Refused(_) => Err("cannot serialize arguments")
    case Bytes(text) =>
      match core.parse(text)
      case None => Err("canonical arguments are not JSON")
      case Some(json) => Ok(json)
  }

  /** The value round trip, through the encoding the host uses: a response's table
      goes back to the response's normal form, and that form has the same table. */
  lemma ResponseRoundTrip(core: Core, v: Json)
    requires Lawful(core) && JsonToTable(v).Some? && core.canonical(Table(JsonToTable(v).value)).Bytes?
    ensures TableToJson(core, JsonToTable(v).value) == Ok(Normal(v))
    ensures JsonToTable(Normal(v)) == JsonToTable(v) && Normal(Normal(v)) == Normal(v)
  {
    ResponseTable(v);
    NormalForm(v);
  }

  /** Arguments JSON can describe go out as an object or an array that has the
      same table, never as null; an object is what `JsonToTable` takes back. */
  lemma ArgumentRoundTrip(core: Core, args: LuaTable)
    requires Lawful(core) && Plain(Table(args)) && core.canonical(Table(args)).Bytes?
    ensures var json := TableToJson(core, args);
            && json.Ok? && (json.value.Obj? || json.value.Arr?)
            && !HasNullElement(json.value) && Lua(json.value) == Table(args)
            && (json.value.Obj? ==> JsonToTable(json.value) == Some(args))
  {
    BackAndThere(Table(args));
  }

  datatype Gate = Refuse(decision: CallDecision, message: string) | Pass(args: Json)

  /** The checks before a call is dispatched, in order. */
  function Examine(env: Env, name: string, args: LuaTable): Gate
  {
    match TableToJson(env.core, args)
    case Err(e) => Refuse(RejectedBySchema(name + ": " + e), "schema: " + name + ": " + e)
    case Ok(json) =>
      match Find(env.allowed, name)
      case None =>
        var reason := "tool " + name + " is not allowed for " + env.principal;
        Refuse(DeniedByPolicy(reason), "policy: " + reason)
      case Some(tool) =>
        match env.schemaError(tool, json)
        case Some(reason) => Refuse(RejectedBySchema(reason), "schema: " + reason)
        case None =>
          match Policy.Verdict(env.rules, env.principal, name, json)
          case Deny(reason) => Refuse(DeniedByPolicy(reason), "policy: " + reason)
          case Allow => Pass(json)
  }

  /** The call is on the allow-list, fits its schema and meets the policy. */
  ghost predicate Permitted(env: Env, name: string, json: Json)
  {
    && (exists t :: t in env.catalog.tools && QualifiedName(t) == name)
    && Find(env.allowed, name).Some? && env.schemaError(Find(env.allowed, name).value, json).None?
    && Policy.Permits(env.rules, env.principal, name, json)
  }

  function Reason(d: CallDecision): string
  {
    match d
    case Allowed => ""
    case RejectedBySchema(reason) => "schema: " + reason
    case DeniedByPolicy(reason) => "policy: " + reason
  }

  /** A call is let through exactly when its arguments have a JSON form that is
      permitted. */
  lemma ExamineExact(env: Env, name: string, args: LuaTable, json: Json)
    requires ValidEnv(env)
    ensures Examine(env, name, args) == Pass(json)
            <==> TableToJson(env.core, args) == Ok(json) && Permitted(env, name, json)
  {
    Policy.VerdictExact(env.rules, env.principal, name, json);
    var found := Find(env.allowed, name);
    assert found.Some? ==> found.value in env.catalog.tools;
  }

  /** A refusal is the policy's exactly when the arguments have a JSON form and
      the tool is not on the list, or the schema accepts what the policy does
      not; any other is the schema's. The program is told the logged reason. */
  lemma RefusalExact(env: Env, name: string, args: LuaTable)
    requires Examine(env, name, args).Refuse?
    ensures var gate := Examine(env, name, args);
            && !gate.decision.Allowed? && gate.message == Reason(gate.decision)
            && (gate.decision.DeniedByPolicy? <==>
                  && TableToJson(env.core, args).Ok?
                  && var found, form := Find(env.allowed, name), TableToJson(env.core, args).value;
                     found.None? || (env.schemaError(found.value, form).None?
                                     && !Policy.Permits(env.rules, env.principal, name, form)))
  {
    var form := TableToJson(env.core, args);
    if form.Ok? {
      Policy.VerdictExact(env.rules, env.principal, name, form.value);
    }
  }

  /** The table the program sees, with the tag and bytes only the trace sees. */
  function Accept(core: Core, name: string, response: Result<ToolResponse>): Result<(LuaTable, Tag, string)>
  {
    match response
    case Err(e) => Err("downstream: " + e)
    case Ok(r) =>
      match JsonToTable(r.value)
      case None => Err("downstream: " + name + ": the response has no table form")
      case Some(table) =>
        if core.canonical(Table(table)).Refused? then
          Err("downstream: " + name + ": response cannot be recorded")
        else Ok((table, r.provenance, r.attestation))
  }

  datatype HostState = HostState(
    log: seq<(CallDecision, Tag)>, attestation: Option<string>, dispatched: seq<Dispatch>)

  const FRESH := HostState([], None, [])

  /** The requests a permitted call sends: one, unless its arguments are not an
      object. */
  function Sent(catalog: Catalog, name: string, json: Json): seq<Dispatch>
  {
    var route := Route(catalog, name, json);
    if route.Ok? then [route.value] else []
  }

  function Respond(env: Env, sent: seq<Dispatch>, name: string, json: Json, oracle: Oracle): Result<ToolResponse>
  {
    var route := Route(env.catalog, name, json);
    if route.Ok? then ReadReply(env.core.parse, name, oracle(sent)) else Err(route.error)
  }

  function HostSend(env: Env, h: HostState, name: string, json: Json, oracle: Oracle): (HostState, Reply)
  {
    var sent := h.dispatched + Sent(env.catalog, name, json);
    match Accept(env.core, name, Respond(env, sent, name, json, oracle))
    case Err(e) => (HostState(h.log + [(Allowed, Tag.Unsigned)], None, sent), Err(e))
    case Ok((table, tag, blob)) =>
      (HostState(h.log + [(Allowed, tag)], if blob == "" then None else Some(blob), sent), Ok(table))
  }

  function HostCall(env: Env, h: HostState, name: string, args: LuaTable, oracle: Oracle): (HostState, Reply)
  {
    match Examine(env, name, args)
    case Refuse(decision, message) =>
      (HostState(h.log + [(decision, Tag.Unsigned)], None, h.dispatched), Err(message))
    case Pass(json) => HostSend(env, h, name, json, oracle)
  }

  function HostTake(h: HostState): (HostState, Option<string>)
  {
    (h.(attestation := None), h.attestation)
  }

  class GatewayHost {
    const env: Env
    var log: seq<(CallDecision, Tag)>
    var attestation: Option<string>
    /** The requests the downstream servers have received. */
    var dispatched: seq<Dispatch>

    ghost function State(): HostState
      reads this
    {
      HostState(log, attestation, dispatched)
    }

    constructor (env: Env)
      ensures this.env == env && State() == FRESH
    {
      this.env := env;
      log, attestation, dispatched := [], None, [];
    }

    method RefuseCall(decision: CallDecision, message: string) returns (r: Reply)
      modifies this`log
      ensures r == Err(message)
      ensures log == old(log) + [(decision, Tag.Unsigned)]
    {
      log := log + [(decision, Tag.Unsigned)];
      r := Err(message);
    }

    method CallTool(name: string, args: LuaTable, oracle: Oracle) returns (r: Reply)
      modifies this
      ensures (State(), r) == HostCall(env, old(State()), name, args, oracle)
    {
      attestation := None;
      var json := TableToJson(env.core, args);
      if json.Err? {
        r := RefuseCall(RejectedBySchema(name + ": " + json.error), "schema: " + name + ": " + json.error);
        return;
      }
      var tool := Find(env.allowed, name);
      if tool.None? {
        var reason := "tool " + name + " is not allowed for " + env.principal;
        r := RefuseCall(DeniedByPolicy(reason), "policy: " + reason);
        return;
      }
      var invalid := env.schemaError(tool.value, json.value);
      if invalid.Some? {
        r := RefuseCall(RejectedBySchema(invalid.value), "schema: " + invalid.value);
        return;
      }
      var decision := Policy.Check(env.rules, env.principal, name, json.value);
      if decision.Deny? {
        r := RefuseCall(DeniedByPolicy(decision.reason), "policy: " + decision.reason);
        return;
      }
      var response: Result<ToolResponse>;
      var route := Route(env.catalog, name, json.value);
      if route.Ok? {
        dispatched := dispatched + [route.value];
        response := ReadReply(env.core.parse, name, oracle(dispatched));
      } else {
        response := Err(route.error);
        assert dispatched + [] == dispatched;
      }
      var accepted := Accept(env.core, name, response);
      if accepted.Ok? {
        var (table, tag, blob) := accepted.value;
        log := log + [(Allowed, tag)];
        attestation := if blob == "" then None else Some(blob);
        r := Ok(table);
      } else {
        log := log + [(Allowed, Tag.Unsigned)];
        r := Err(accepted.error);
      }
    }

    method TakeAttestation() returns (blob: Option<string>)
      modifies this`attestation
      ensures (State(), blob) == HostTake(old(State()))
    {
      blob := attestation;
      attestation := None;
    }
  }

  // ---------------------------------------------------------------------
  // Attestation hand-over
  // ---------------------------------------------------------------------

  datatype HostEvent = CallEvent(name: string, args: LuaTable, oracle: Oracle) | TakeEvent

  function HostStep(env: Env, h: HostState, e: HostEvent): HostState
  {
    match e
    case CallEvent(name, args, oracle) => HostCall(env, h, name, args, oracle).0
    case TakeEvent => HostTake(h).0
  }

  function HostAfter(env: Env, events: seq<HostEvent>): HostState
  {
    if events == [] then FRESH
    else HostStep(env, HostAfter(env, events[..|events| - 1]), events[|events| - 1])
  }

  /** The event is a call that accepts a response whose tag is not `Unsigned`. */
  ghost predicate Attests(env: Env, h: HostState, e: HostEvent)
  {
    && e.CallEvent?
    && var (h', reply) := HostCall(env, h, e.name, e.args, e.oracle);
       reply.Ok? && h'.log != [] && !h'.log[|h'.log| - 1].1.Unsigned?
  }

  ghost predicate Attested(env: Env, events: seq<HostEvent>)
  {
    events != [] && Attests(env, HostAfter(env, events[..|events| - 1]), events[|events| - 1])
  }

  /** An accepted response can be recorded and decoded again, and its bytes are
      its tag's. */
  lemma AcceptFacts(env: Env, sent: seq<Dispatch>, name: string, json: Json, oracle: Oracle)
    requires Accept(env.core, name, Respond(env, sent, name, json, oracle)).Ok?
    ensures var (table, tag, blob) := Accept(env.core, name, Respond(env, sent, name, json, oracle)).value;
            && Plain(Table(table)) && env.core.canonical(Table(table)).Bytes?
            && WellFormed(tag) && blob == Blob(tag) && (blob == "" <==> tag.Unsigned?)
  {
    ReadResult(oracle(sent).meta);
    ResponseTable(Respond(env, sent, name, json, oracle).value.value);
  }

  /** A reply the program may see, with the tag only the trace sees: no error, its
      report absent or well formed, and what it stands for has a table that can be
      recorded. */
  ghost predicate Usable(core: Core, reply: McpReply, v: Json, tag: Tag)
  {
    && reply.Replied? && !reply.isError && StandsFor(core.parse, reply, v)
    && Reported(reply.meta, tag) && WellFormed(tag)
    && JsonToTable(v).Some? && core.canonical(Table(JsonToTable(v).value)).Bytes?
  }

  lemma AcceptExact(core: Core, name: string, reply: McpReply, table: LuaTable, tag: Tag, blob: string)
    ensures Accept(core, name, ReadReply(core.parse, name, reply)) == Ok((table, tag, blob))
            <==> exists v :: Usable(core, reply, v, tag) && JsonToTable(v) == Some(table) && blob == Blob(tag)
  {
    var response := ReadReply(core.parse, name, reply);
    if response.Ok? {
      ReplyExact(core.parse, name, reply, response.value);
    }
    forall v | Usable(core, reply, v, tag) ensures response == Ok(ToolResponse(v, tag, Blob(tag))) {
      ReplyExact(core.parse, name, reply, ToolResponse(v, tag, Blob(tag)));
    }
  }

  /** What a permitted call comes to, from the downstream's own reply: it succeeds
      exactly when that reply is usable; the program then reads the table of what
      the reply stands for, and the log has the tag reported. */
  lemma AnswerExact(env: Env, h: HostState, name: string, args: LuaTable, json: Json, oracle: Oracle)
    requires ValidEnv(env) && Examine(env, name, args) == Pass(json) && (json.Obj? || json.Null?)
    ensures var (h', r) := HostCall(env, h, name, args, oracle);
            var reply := oracle(h.dispatched + Sent(env.catalog, name, json));
            && (r.Ok? <==> exists v, tag :: Usable(env.core, reply, v, tag))
            && (forall v, tag | Usable(env.core, reply, v, tag) ::
                  && r == Ok(JsonToTable(v).value) && TableToJson(env.core, r.value) == Ok(Normal(v))
                  && h'.log == h.log + [(Allowed, tag)])
            && (r.Err? ==> "downstream: " <= r.error && h'.log == h.log + [(Allowed, Tag.Unsigned)])
  {
    var sent := h.dispatched + Sent(env.catalog, name, json);
    AcceptedExactly(env.core, name, oracle(sent));
    NotRouted(env, name, args, json);
    assert Respond(env, sent, name, json, oracle) == ReadReply(env.core.parse, name, oracle(sent));
  }

  lemma AcceptedExactly(core: Core, name: string, reply: McpReply)
    requires Lawful(core)
    ensures var accepted := Accept(core, name, ReadReply(core.parse, name, reply));
            && (accepted.Ok? <==> exists v, tag :: Usable(core, reply, v, tag))
            && (forall v, tag | Usable(core, reply, v, tag) ::
                  && accepted == Ok((JsonToTable(v).value, tag, Blob(tag)))
                  && TableToJson(core, JsonToTable(v).value) == Ok(Normal(v)))
            && (accepted.Err? ==> "downstream: " <= accepted.error)
  {
    var accepted := Accept(core, name, ReadReply(core.parse, name, reply));
    if accepted.Ok? {
      AcceptExact(core, name, reply, accepted.value.0, accepted.value.1, accepted.value.2);
    }
    forall v, tag | Usable(core, reply, v, tag)
      ensures accepted == Ok((JsonToTable(v).value, tag, Blob(tag)))
      ensures TableToJson(core, JsonToTable(v).value) == Ok(Normal(v))
    {
      AcceptExact(core, name, reply, JsonToTable(v).value, tag, Blob(tag));
      ResponseRoundTrip(core, v);
    }
  }

  lemma NotRouted(env: Env, name: string, args: LuaTable, json: Json)
    requires ValidEnv(env) && Examine(env, name, args) == Pass(json)
    ensures Route(env.catalog, name, json).Ok? <==> json.Obj? || json.Null?
  {
    ExamineExact(env, name, args, json);
    var tool :| tool in env.catalog.tools && QualifiedName(tool) == name;
    CataloguedToolRoutes(env.catalog, tool, json);
  }

  /** A refused call logs the decision that `RefusalExact` determines, tells the
      program its reason, and sends nothing. A permitted call whose arguments are
      no object fails without being sent. */
  lemma RefusedExact(env: Env, h: HostState, name: string, args: LuaTable, oracle: Oracle)
    requires ValidEnv(env)
    ensures var (h', r) := HostCall(env, h, name, args, oracle);
            var gate := Examine(env, name, args);
            && (gate.Refuse? ==>
                  && h' == HostState(h.log + [(gate.decision, Tag.Unsigned)], None, h.dispatched)
                  && r == Err(Reason(gate.decision)))
            && (gate.Pass? && !gate.args.Obj? && !gate.args.Null? ==>
                  && h' == HostState(h.log + [(Allowed, Tag.Unsigned)], None, h.dispatched) && r.Err?)
  {
    var gate := Examine(env, name, args);
    if gate.Refuse? {
      RefusalExact(env, name, args);
    } else if !gate.args.Obj? && !gate.args.Null? {
      NotRouted(env, name, args, gate.args);
      assert h.dispatched + [] == h.dispatched;
    }
  }

  /** What one call leaves in the log, for core, and with the downstreams. */
  ghost predicate Logged(env: Env, h: HostState, name: string, args: LuaTable, h': HostState, reply: Reply)
  {
    && |h'.log| == |h.log| + 1 && h'.log[..|h.log|] == h.log
    && var (decision, tag) := h'.log[|h.log|];
       && WellFormed(tag)
       && h'.attestation == (if tag.Unsigned? then None else Some(Blob(tag)))
       && (reply.Err? ==> tag.Unsigned?)
       && (reply.Ok? ==> decision.Allowed? && Plain(Table(reply.value))
                         && env.core.canonical(Table(reply.value)).Bytes?)
       && (decision.Allowed? <==> Examine(env, name, args).Pass?)
       && h'.dispatched == h.dispatched
          + if decision.Allowed? then Sent(env.catalog, name, Examine(env, name, args).args) else []
  }

  lemma CallFacts(env: Env, h: HostState, name: string, args: LuaTable, oracle: Oracle)
    requires ValidEnv(env)
    ensures var (h', reply) := HostCall(env, h, name, args, oracle); Logged(env, h, name, args, h', reply)
  {
    var gate := Examine(env, name, args);
    if gate.Pass? {
      var sent := h.dispatched + Sent(env.catalog, name, gate.args);
      if Accept(env.core, name, Respond(env, sent, name, gate.args, oracle)).Ok? {
        AcceptFacts(env, sent, name, gate.args, oracle);
      }
    } else {
      RefusalExact(env, name, args);
      assert h.dispatched + [] == h.dispatched;
    }
  }

  lemma StepHandsOver(env: Env, h: HostState, e: HostEvent)
    requires ValidEnv(env)
    ensures var h' := HostStep(env, h, e);
            && (h'.attestation.Some? <==> Attests(env, h, e))
            && (h'.attestation.Some? ==>
                  && h'.log != []
                  && var tag := h'.log[|h'.log| - 1].1;
                     WellFormed(tag) && !tag.Unsigned? && h'.attestation.value == Blob(tag))
  {
    if e.CallEvent? {
      CallFacts(env, h, e.name, e.args, e.oracle);
    }
  }

  /** After any sequence of calls and hand-overs, a blob waits exactly when the
      last event was a call whose accepted response was attested, and it is that
      response's own. */
  lemma HandOver(env: Env, events: seq<HostEvent>)
    requires ValidEnv(env)
    ensures var h := HostAfter(env, events);
            var blob := HostTake(h).1;
            && (blob.Some? <==> Attested(env, events))
            && (blob.Some? ==>
                  && h.log != []
                  && var tag := h.log[|h.log| - 1].1; WellFormed(tag) && !tag.Unsigned? && blob.value == Blob(tag))
  {
    if events != [] {
      StepHandsOver(env, HostAfter(env, events[..|events| - 1]), events[|events| - 1]);
    }
  }

  lemma WaitsExactly(env: Env, events: seq<HostEvent>)
    requires ValidEnv(env)
    ensures HostTake(HostAfter(env, events)).1.Some? <==> Attested(env, events)
  {
    if events != [] {
      StepHandsOver(env, HostAfter(env, events[..|events| - 1]), events[|events| - 1]);
    }
  }

  lemma EndsInCall(env: Env, events: seq<HostEvent>)
    requires Attested(env, events)
    ensures events != [] && events[|events| - 1].CallEvent?
  {
  }

  /** A blob that can be taken after an earlier take comes from a call made since,
      so no blob is handed over twice. */
  lemma HandedOnce(env: Env, events: seq<HostEvent>, i: nat, j: nat)
    requires ValidEnv(env) && i < j <= |events| && events[i].TakeEvent?
    requires HostTake(HostAfter(env, events[..j])).1.Some?
    ensures i < j - 1 && Attested(env, events[..j])
  {
    WaitsExactly(env, events[..j]);
    EndsInCall(env, events[..j]);
  }
}
