/** Tool names, the catalogue of discovered tools, and routing a call to the
    server that owns the tool. */
module Downstream {
  import opened Text
  import opened Values
  import opened Provenance

  datatype ToolSchema = ToolSchema(
    server: string, name: string, description: string, input: Json, output: Option<Json>)

  function QualifiedName(t: ToolSchema): string
  {
    t.server + "." + t.name
  }

  // ---------------------------------------------------------------------
  // Names
  // ---------------------------------------------------------------------

  /** `split_once('.')`: the text before and after the first dot. */
  function SplitOnce(s: string): (r: Option<(string, string)>)
    ensures r.Some? ==> s == r.value.0 + "." + r.value.1 && '.' !in r.value.0
    ensures r.None? <==> '.' !in s
  {
    if s == [] then None
    else if s[0] == '.' then Some(("", s[1..]))
    else
      match SplitOnce(s[1..])
      case None => None
      case Some((head, tail)) => Some(([s[0]] + head, tail))
  }

  lemma {:induction false} SplitOnceInverts(server: string, tool: string)
    requires '.' !in server
    ensures SplitOnce(server + "." + tool) == Some((server, tool))
  {
    var s := server + "." + tool;
    if server == [] {
      assert s == "." + tool;
    } else {
      assert server[0] != '.' && '.' !in server[1..];
      SplitOnceInverts(server[1..], tool);
      assert s[1..] == server[1..] + "." + tool;
      assert s[0] == server[0] && server == [server[0]] + server[1..];
    }
  }

  /** The downstream-name checks of the configuration file. */
  method AcceptNames(names: seq<string>) returns (ok: bool)
    ensures ok <==> (forall i | 0 <= i < |names| :: '.' !in names[i])
                    && (forall i, j | 0 <= i < j < |names| :: names[i] != names[j])
  {
    var seen: set<string> := {};
    for n := 0 to |names|
      invariant seen == set i | 0 <= i < n :: names[i]
      invariant forall i | 0 <= i < n :: '.' !in names[i]
      invariant forall i, j | 0 <= i < j < n :: names[i] != names[j]
    {
      if '.' in names[n] || names[n] in seen {
        return false;
      }
      seen := seen + {names[n]};
    }
    ok := true;
  }

  datatype Listed = Listed(name: string, description: string, input: Json, output: Option<Json>)

  datatype Server = Server(name: string, listed: seq<Listed>)

  datatype Catalog = Catalog(clients: set<string>, tools: seq<ToolSchema>)

  /** What an accepted configuration and a successful connect establish. */
  ghost predicate Valid(c: Catalog)
  {
    && (forall t | t in c.tools :: t.server in c.clients && '.' !in t.server && '.' !in t.name)
    && SortedBy(c.tools, QualifiedName)
  }

  ghost predicate Discovered(t: ToolSchema, servers: seq<Server>)
  {
    exists s, l :: s in servers && l in s.listed && t == ToolSchema(s.name, l.name, l.description, l.input, l.output)
  }

  method Connect(servers: seq<Server>) returns (r: Result<Catalog>)
    requires forall s | s in servers :: '.' !in s.name
    ensures r.Ok? <==> forall s, l | s in servers && l in s.listed :: '.' !in l.name
    ensures r.Ok? ==> Valid(r.value) && r.value.clients == set s | s in servers :: s.name
    ensures r.Ok? ==> forall t :: t in r.value.tools <==> Discovered(t, servers)
  {
    var clients: set<string> := {};
    var tools: seq<ToolSchema> := [];
    for i := 0 to |servers|
      invariant clients == set s | s in servers[..i] :: s.name
      invariant forall s, l | s in servers[..i] && l in s.listed :: '.' !in l.name
      invariant forall t | t in tools :: t.server in clients && '.' !in t.server && '.' !in t.name
      invariant forall t :: t in tools <==> Discovered(t, servers[..i])
    {
      var s := servers[i];
      assert servers[..i + 1] == servers[..i] + [s];
      ghost var before := tools;
      for j := 0 to |s.listed|
        invariant forall l | l in s.listed[..j] :: '.' !in l.name
        invariant forall t | t in tools :: t.server in clients + {s.name} && '.' !in t.server && '.' !in t.name
        invariant forall t :: t in tools <==> t in before || Discovered(t, [Server(s.name, s.listed[..j])])
      {
        var l := s.listed[j];
        if '.' in l.name {
          assert l in s.listed;
          return Err("downstream " + s.name + ": tool name must not contain a dot");
        }
        var t := ToolSchema(s.name, l.name, l.description, l.input, l.output);
        tools := tools + [t];
        assert s.listed[..j + 1] == s.listed[..j] + [l];
        assert Discovered(t, [Server(s.name, s.listed[..j + 1])]);
      }
      assert s.listed[..|s.listed|] == s.listed && s == Server(s.name, s.listed);
      clients := clients + {s.name};
    }
    assert servers[..|servers|] == servers;
    var sorted := SortBy(tools, QualifiedName);
    SortBySorted(tools, QualifiedName);
    assert forall t :: t in sorted <==> t in multiset(sorted);
    assert forall t :: t in tools <==> t in multiset(tools);
    r := Ok(Catalog(clients, sorted));
  }

  /** A qualified name splits back into the server and tool it was made from,
      so it names one tool of one server. */
  lemma QualifiedNameSplits(c: Catalog, t: ToolSchema)
    requires Valid(c) && t in c.tools
    ensures SplitOnce(QualifiedName(t)) == Some((t.server, t.name))
    ensures forall u | u in c.tools && QualifiedName(u) == QualifiedName(t) ::
              u.server == t.server && u.name == t.name
  {
    SplitOnceInverts(t.server, t.name);
    forall u | u in c.tools && QualifiedName(u) == QualifiedName(t)
      ensures u.server == t.server && u.name == t.name
    {
      SplitOnceInverts(u.server, u.name);
    }
  }

  // ---------------------------------------------------------------------
  // Calls
  // ---------------------------------------------------------------------

  datatype Content = TextBlock(text: string) | OtherBlock

  /** What the downstream client returned for one `tools/call`. */
  datatype McpReply =
    | Failed(error: string)
    | Replied(content: seq<Content>, structured: Option<Json>, isError: bool, meta: Option<map<string, Json>>)

  datatype Dispatch = Dispatch(server: string, tool: string, arguments: Option<map<string, Json>>)

  datatype ToolResponse = ToolResponse(value: Json, provenance: Tag, attestation: string)

  function Texts(content: seq<Content>): string
  {
    if content == [] then ""
    else (if content[0].TextBlock? then content[0].text else "") + Texts(content[1..])
  }

  /** The value the program sees is always an object. */
  function MapResult(parse: string -> Option<Json>, reply: McpReply): (r: Result<Json>)
    requires reply.Replied?
    ensures r.Ok? <==> !reply.isError
    ensures r.Ok? ==> r.value.Obj?
  {
    if reply.isError then Err(Texts(reply.content))
    else
      var value :=
        if reply.structured.Some? then reply.structured.value
        else if |reply.content| == 1 && reply.content[0].TextBlock? && parse(reply.content[0].text).Some?
                && parse(reply.content[0].text).value.Obj? then
          parse(reply.content[0].text).value
        else Obj(map["text" := Str(Texts(reply.content))]);
      Ok(if value.Obj? then value else Obj(map["value" := value]))
  }

  /** The texts of the text blocks, in order. */
  function BlockTexts(content: seq<Content>): seq<string>
  {
    if content == [] then []
    else (if content[0].TextBlock? then [content[0].text] else []) + BlockTexts(content[1..])
  }

  lemma {:induction false} TextsJoined(content: seq<Content>)
    ensures Texts(content) == Joined(BlockTexts(content))
  {
    if content == [] {
    } else {
      TextsJoined(content[1..]);
      var first := if content[0].TextBlock? then [content[0].text] else [];
      JoinedConcat(first, BlockTexts(content[1..]));
      if content[0].TextBlock? {
        assert Joined(first) == Joined(first[..0]) + first[0] == first[0];
      }
    }
  }

  /** The object a reply that is no error stands for: its structured content, or
      that under `value` if it is no object; else the object that is its one text
      block; else its texts under `text`. */
  ghost predicate StandsFor(parse: string -> Option<Json>, reply: McpReply, v: Json)
    requires reply.Replied?
  {
    match reply.structured
    case Some(Obj(members)) => v == Obj(members)
    case Some(other) => v == Obj(map["value" := other])
    case None =>
      if |reply.content| == 1 && reply.content[0].TextBlock? && IsObject(parse(reply.content[0].text)) then
        Some(v) == parse(reply.content[0].text)
      else v == Obj(map["text" := Str(Joined(BlockTexts(reply.content)))])
  }

  predicate IsObject(v: Option<Json>)
  {
    v.Some? && v.value.Obj?
  }

  /** A downstream's answer is taken exactly when the call came back, as no error,
      with no report or a well-formed one; it is then what the reply stands for,
      with the tag reported. */
  lemma ReplyExact(parse: string -> Option<Json>, qualified: string, reply: McpReply, r: ToolResponse)
    ensures ReadReply(parse, qualified, reply) == Ok(r)
            <==> reply.Replied? && !reply.isError && StandsFor(parse, reply, r.value)
                 && Reported(reply.meta, r.provenance) && WellFormed(r.provenance) && r.attestation == Blob(r.provenance)
    ensures reply.Replied? && reply.isError ==> ReadReply(parse, qualified, reply) == Err(Joined(BlockTexts(reply.content)))
  {
    if reply.Replied? {
      TextsJoined(reply.content);
      ProvenanceExact(reply.meta, r.provenance, r.attestation);
    }
  }

  /** The client to use and the request to send, or why nothing is sent. */
  function Route(c: Catalog, qualified: string, args: Json): Result<Dispatch>
  {
    match SplitOnce(qualified)
    case None => Err("unknown tool `" + qualified + "`")
    case Some((server, tool)) =>
      if server !in c.clients || !exists t | t in c.tools :: t.server == server && t.name == tool then
        Err("unknown tool `" + qualified + "`")
      else
        match args
        case Obj(members) => Ok(Dispatch(server, tool, Some(members)))
        case Null => Ok(Dispatch(server, tool, None))
        case _ => Err(qualified + ": arguments must be a JSON object")
  }

  function ReadReply(parse: string -> Option<Json>, qualified: string, reply: McpReply): Result<ToolResponse>
  {
    if reply.Failed? then Err(qualified + ": " + reply.error)
    else
      match MapResult(parse, reply)
      case Err(e) => Err(e)
      case Ok(value) =>
        match ReadProvenance(reply.meta)
        case Err(e) => Err(qualified + ": malformed provenance: " + e)
        case Ok((tag, blob)) => Ok(ToolResponse(value, tag, blob))
  }

  /** A catalogued tool is never unknown: only arguments that are neither an
      object nor null keep the request from being sent. */
  lemma CataloguedToolRoutes(c: Catalog, t: ToolSchema, args: Json)
    requires Valid(c) && t in c.tools
    ensures Route(c, QualifiedName(t), args).Ok? <==> args.Obj? || args.Null?
    ensures args.Obj? ==> Route(c, QualifiedName(t), args) == Ok(Dispatch(t.server, t.name, Some(args.members)))
  {
    QualifiedNameSplits(c, t);
  }
}
