/** What a model is told of its tools, and the Lua lines that define them. */
module Description {
  import opened Text
  import opened Downstream
  import Rendering

  /** The fixed prompt text. */
  datatype Wording = Wording(rules: string, examples: string)

  datatype ToolDescription = ToolDescription(text: string, hash: string, prelude: string)

  // ---------------------------------------------------------------------
  // Specification
  // ---------------------------------------------------------------------

  const HEADING := "\n# Tool API\n\n"
  const NO_TOOLS := "No tools are available.\n"

  function Entries(tools: seq<ToolSchema>): string
  {
    if tools == [] then "" else Entries(tools[..|tools| - 1]) + Rendering.RenderTool(tools[|tools| - 1])
  }

  function DescriptionText(w: Wording, tools: seq<ToolSchema>): string
  {
    w.rules + HEADING + (if tools == [] then NO_TOOLS else "") + Entries(tools) + "\n" + w.examples
  }

  datatype Line = Declare(server: string) | Wrap(tool: string)

  const LOCAL := "local "
  const TABLE := " = {}"
  const FUNCTION := " = function(args) return tool.call(\""
  const END := "\", args) end"

  function LineText(line: Line): string
  {
    match line
    case Declare(server) => LOCAL + server + TABLE + "\n"
    case Wrap(q) => q + FUNCTION + q + END + "\n"
  }

  function LineTexts(lines: seq<Line>): (texts: seq<string>)
    ensures |texts| == |lines| && forall i | 0 <= i < |lines| :: texts[i] == LineText(lines[i])
  {
    seq(|lines|, i requires 0 <= i < |lines| => LineText(lines[i]))
  }

  function ServersOf(tools: seq<ToolSchema>): set<string>
  {
    set t | t in tools :: t.server
  }

  function DeclareLines(servers: seq<string>): (lines: seq<Line>)
    ensures |lines| == |servers| && forall i | 0 <= i < |servers| :: lines[i] == Declare(servers[i])
  {
    seq(|servers|, i requires 0 <= i < |servers| => Declare(servers[i]))
  }

  function WrapLines(tools: seq<ToolSchema>): (lines: seq<Line>)
    ensures |lines| == |tools| && forall i | 0 <= i < |tools| :: lines[i] == Wrap(QualifiedName(tools[i]))
  {
    seq(|tools|, i requires 0 <= i < |tools| => Wrap(QualifiedName(tools[i])))
  }

  function PreludeLines(tools: seq<ToolSchema>): (lines: seq<Line>)
  {
    DeclareLines(InOrder(ServersOf(tools))) + WrapLines(tools)
  }

  function Prelude(tools: seq<ToolSchema>): string
  {
    Joined(LineTexts(PreludeLines(tools)))
  }

  function Describe(w: Wording, hash: string -> string, allowed: seq<ToolSchema>): ToolDescription
  {
    var tools := SortBy(allowed, QualifiedName);
    var text := DescriptionText(w, tools);
    ToolDescription(text, hash(text), Prelude(tools))
  }

  // ---------------------------------------------------------------------
  // The loops
  // ---------------------------------------------------------------------

  /** `dedup`: drops each element equal to the one kept before it. */
  method Dedup(sorted: seq<string>) returns (kept: seq<string>)
    requires forall i, j | 0 <= i < j < |sorted| :: !Less(sorted[j], sorted[i])
    ensures StrictlySorted(kept)
    ensures forall s :: s in kept <==> s in sorted
  {
    kept := [];
    for i := 0 to |sorted|
      invariant StrictlySorted(kept)
      invariant forall s :: s in kept <==> s in sorted[..i]
      invariant if i == 0 then kept == [] else kept != [] && kept[|kept| - 1] == sorted[i - 1]
    {
      assert sorted[..i + 1] == sorted[..i] + [sorted[i]];
      if kept == [] || kept[|kept| - 1] != sorted[i] {
        forall j | 0 <= j < |kept| ensures Less(kept[j], sorted[i]) {
          LessTotal(sorted[i - 1], sorted[i]);
          if j < |kept| - 1 {
            LessTransitive(kept[j], sorted[i - 1], sorted[i]);
          }
        }
        kept := kept + [sorted[i]];
      }
    }
    assert sorted[..|sorted|] == sorted;
  }

  function ServerList(tools: seq<ToolSchema>): (all: seq<string>)
    ensures forall s :: s in all <==> s in ServersOf(tools)
  {
    if tools == [] then [] else
      assert tools == [tools[0]] + tools[1..];
      assert ServersOf(tools) == {tools[0].server} + ServersOf(tools[1..]);
      [tools[0].server] + ServerList(tools[1..])
  }

  /** The servers of the tools: collected, sorted, then deduplicated. */
  method SortedServers(tools: seq<ToolSchema>) returns (servers: seq<string>)
    ensures servers == InOrder(ServersOf(tools))
  {
    var all := ServerList(tools);
    var sorted := SortBy(all, Self);
    SortBySorted(all, Self);
    forall i, j | 0 <= i < j < |sorted| ensures !Less(sorted[j], sorted[i]) {
      assert !Less(Self(sorted[j]), Self(sorted[i]));
    }
    servers := Dedup(sorted);
    assert forall s :: s in sorted <==> s in multiset(sorted);
    assert forall s :: s in all <==> s in multiset(all);
    SortedUnique(servers, InOrder(ServersOf(tools)));
  }

  method Write(lines: seq<Line>) returns (out: string)
    ensures out == Joined(LineTexts(lines))
  {
    ghost var texts := LineTexts(lines);
    out := "";
    for i := 0 to |lines|
      invariant out == Joined(texts[..i])
    {
      var text := LineText(lines[i]);
      assert text == texts[i] && texts[..i + 1] == texts[..i] + [text];
      JoinedConcat(texts[..i], [text]);
      assert Joined([text]) == Joined([text][..0]) + text == text;
      out := out + text;
    }
    assert texts[..|texts|] == texts;
  }

  lemma WrittenTogether(a: seq<Line>, b: seq<Line>)
    ensures Joined(LineTexts(a + b)) == Joined(LineTexts(a)) + Joined(LineTexts(b))
  {
    var x, y, z := LineTexts(a), LineTexts(b), LineTexts(a + b);
    assert z == x + y;
    JoinedConcat(x, y);
  }

  method BuildPrelude(tools: seq<ToolSchema>) returns (out: string)
    ensures out == Prelude(tools)
  {
    var servers := SortedServers(tools);
    var declarations := Write(DeclareLines(servers));
    var wrappers := Write(WrapLines(tools));
    out := declarations + wrappers;
    WrittenTogether(DeclareLines(servers), WrapLines(tools));
  }

  lemma EntriesNext(tools: seq<ToolSchema>, i: nat)
    requires i < |tools|
    ensures Entries(tools[..i + 1]) == Entries(tools[..i]) + Rendering.RenderTool(tools[i])
  {
    assert tools[..i + 1][..i] == tools[..i];
  }

  method RenderAll(tools: seq<ToolSchema>) returns (entries: string)
    ensures entries == Entries(tools)
  {
    entries := "";
    for i := 0 to |tools|
      invariant entries == Entries(tools[..i])
    {
      EntriesNext(tools, i);
      entries := entries + Rendering.RenderTool(tools[i]);
    }
    assert tools[..|tools|] == tools;
  }

  method Build(w: Wording, hash: string -> string, allowed: seq<ToolSchema>) returns (d: ToolDescription)
    ensures d == Describe(w, hash, allowed)
  {
    var tools := SortBy(allowed, QualifiedName);
    var entries := RenderAll(tools);
    var text := w.rules + HEADING + (if tools == [] then NO_TOOLS else "") + entries + "\n" + w.examples;
    var prelude := BuildPrelude(tools);
    d := ToolDescription(text, hash(text), prelude);
  }

  // ---------------------------------------------------------------------
  // Properties
  // ---------------------------------------------------------------------

  function Rendered(tools: seq<ToolSchema>): (entries: seq<string>)
    ensures |entries| == |tools| && forall i | 0 <= i < |tools| :: entries[i] == Rendering.RenderTool(tools[i])
  {
    seq(|tools|, i requires 0 <= i < |tools| => Rendering.RenderTool(tools[i]))
  }

  lemma {:induction false} EntriesJoined(tools: seq<ToolSchema>)
    ensures Entries(tools) == Joined(Rendered(tools))
  {
    if tools != [] {
      var front := tools[..|tools| - 1];
      EntriesJoined(front);
      assert Rendered(tools)[..|tools| - 1] == Rendered(front);
    }
  }

  /** The text is the rules, a heading, one entry for each allowed tool in the
      order of their names, and the examples. What stands before and after the
      entries depends on no tool, but for a notice when there is none. */
  lemma ToolsListed(w: Wording, hash: string -> string, allowed: seq<ToolSchema>)
    returns (sorted: seq<ToolSchema>, entries: seq<string>)
    ensures multiset(sorted) == multiset(allowed) && SortedBy(sorted, QualifiedName)
    ensures |entries| == |sorted| && forall i | 0 <= i < |sorted| :: entries[i] == Rendering.RenderTool(sorted[i])
    ensures var d := Describe(w, hash, allowed);
            && d.text == w.rules + HEADING + (if allowed == [] then NO_TOOLS else "") + Joined(entries) + "\n" + w.examples
            && d.hash == hash(d.text)
  {
    sorted := SortBy(allowed, QualifiedName);
    entries := Rendered(sorted);
    SortBySorted(allowed, QualifiedName);
    EntriesJoined(sorted);
    assert |multiset(sorted)| == |sorted| && |multiset(allowed)| == |allowed|;
  }

  lemma JoinedAround(texts: seq<string>, i: nat) returns (before: string, after: string)
    requires i < |texts|
    ensures Joined(texts) == before + texts[i] + after
  {
    before, after := Joined(texts[..i]), Joined(texts[i + 1..]);
    var one := [texts[i]];
    assert texts == texts[..i] + one + texts[i + 1..];
    JoinedConcat(texts[..i] + one, texts[i + 1..]);
    JoinedConcat(texts[..i], one);
    assert Joined(one) == Joined(one[..0]) + texts[i] == texts[i];
  }

  lemma ShownWithin(front: string, texts: seq<string>, i: nat, end: string, last: string)
    returns (before: string, after: string)
    requires i < |texts|
    ensures front + Joined(texts) + end + last == before + texts[i] + after
  {
    var a, b := JoinedAround(texts, i);
    before, after := front + a, b + (end + last);
    var x := texts[i];
    assert front + (a + x + b) + end + last == (front + a) + x + (b + (end + last));
  }

  /** Every allowed tool is shown. */
  lemma EveryToolShown(w: Wording, hash: string -> string, allowed: seq<ToolSchema>, t: ToolSchema)
    returns (before: string, after: string)
    requires t in allowed
    ensures Describe(w, hash, allowed).text == before + Rendering.RenderTool(t) + after
  {
    var sorted, entries := ToolsListed(w, hash, allowed);
    assert t in multiset(sorted);
    var i :| 0 <= i < |sorted| && sorted[i] == t;
    before, after := ShownWithin(
      w.rules + HEADING + (if allowed == [] then NO_TOOLS else ""), entries, i, "\n", w.examples);
  }

  /** The prelude is one declaration for each server, then one wrapper for each
      tool, which calls that tool and no other. */
  lemma PreludeText(tools: seq<ToolSchema>) returns (servers: seq<string>, declared: seq<string>, wrapped: seq<string>)
    ensures StrictlySorted(servers) && forall s :: s in servers <==> exists t | t in tools :: t.server == s
    ensures |declared| == |servers| && forall i | 0 <= i < |servers| :: declared[i] == "local " + servers[i] + " = {}\n"
    ensures |wrapped| == |tools| && forall i | 0 <= i < |tools| ::
              var q := tools[i].server + "." + tools[i].name;
              wrapped[i] == q + " = function(args) return tool.call(\"" + q + "\", args) end\n"
    ensures Prelude(tools) == Joined(declared) + Joined(wrapped)
  {
    servers := InOrder(ServersOf(tools));
    var declarations, wrappers := DeclareLines(servers), WrapLines(tools);
    declared, wrapped := LineTexts(declarations), LineTexts(wrappers);
    WrittenTogether(declarations, wrappers);
    forall i | 0 <= i < |servers| ensures declared[i] == "local " + servers[i] + " = {}\n" {
      DeclareText(servers[i]);
    }
    forall i | 0 <= i < |tools|
      ensures var q := tools[i].server + "." + tools[i].name;
              wrapped[i] == q + " = function(args) return tool.call(\"" + q + "\", args) end\n"
    {
      WrapText(QualifiedName(tools[i]));
    }
  }

  lemma DeclareText(server: string)
    ensures LineText(Declare(server)) == "local " + server + " = {}\n"
  {
    assert TABLE + "\n" == " = {}\n";
    assert LOCAL + server + TABLE + "\n" == LOCAL + server + (TABLE + "\n");
  }

  lemma WrapText(q: string)
    ensures LineText(Wrap(q)) == q + " = function(args) return tool.call(\"" + q + "\", args) end\n"
  {
    assert END + "\n" == "\", args) end\n";
    assert q + FUNCTION + q + END + "\n" == q + FUNCTION + q + (END + "\n");
  }

  /** The description does not depend on the order the tools are given in. */
  lemma OrderIndependent(w: Wording, hash: string -> string, a: seq<ToolSchema>, b: seq<ToolSchema>)
    requires multiset(a) == multiset(b)
    requires DistinctKeys(a, QualifiedName)
    ensures Describe(w, hash, a) == Describe(w, hash, b)
  {
    SortBySorted(a, QualifiedName);
    SortBySorted(b, QualifiedName);
    var x := SortBy(a, QualifiedName);
    assert forall t :: t in x <==> t in multiset(x);
    assert forall t :: t in a <==> t in multiset(a);
    SortedByUnique(x, SortBy(b, QualifiedName), QualifiedName);
  }

  /** Strictly ordered names are declared once each. */
  lemma DeclaredOnce(servers: seq<string>)
    requires StrictlySorted(servers)
    ensures forall i, j | 0 <= i < j < |servers| :: DeclareLines(servers)[i] != DeclareLines(servers)[j]
  {
    forall i, j | 0 <= i < j < |servers| ensures servers[i] != servers[j] {
      LessIrreflexive(servers[i]);
    }
  }

  lemma DeclaredExactly(servers: seq<string>, s: string)
    ensures s in servers <==> Declare(s) in DeclareLines(servers)
  {
    var lines := DeclareLines(servers);
    if s in servers {
      var i :| 0 <= i < |servers| && servers[i] == s;
      assert lines[i] == Declare(s);
    }
  }

  lemma TwoParts(a: seq<Line>, b: seq<Line>)
    ensures (a + b)[..|a|] == a && forall i | 0 <= i < |b| :: (a + b)[|a| + i] == b[i]
  {
  }

  /** Every server is declared once, every declaration comes before every
      wrapper, and the wrappers are the given tools, in order. */
  lemma PreludeShape(tools: seq<ToolSchema>)
    ensures var lines := PreludeLines(tools);
            var n := |lines| - |tools|;
            && 0 <= n
            && (forall s :: s in ServersOf(tools) <==> Declare(s) in lines[..n])
            && (forall i, j | 0 <= i < j < n :: lines[i] != lines[j])
            && (forall i | 0 <= i < |tools| ::
                  lines[n + i] == Wrap(QualifiedName(tools[i])) && tools[i].server in ServersOf(tools))
  {
    var servers := InOrder(ServersOf(tools));
    var declared, wraps := DeclareLines(servers), WrapLines(tools);
    var lines, n := declared + wraps, |declared|;
    TwoParts(declared, wraps);
    forall s ensures s in ServersOf(tools) <==> Declare(s) in lines[..n] {
      DeclaredExactly(servers, s);
    }
    DeclaredOnce(servers);
    forall i, j | 0 <= i < j < n ensures lines[i] != lines[j] {
      assert lines[i] == declared[i] && lines[j] == declared[j];
    }
    forall i | 0 <= i < |tools|
      ensures lines[n + i] == Wrap(QualifiedName(tools[i])) && tools[i].server in ServersOf(tools)
    {
      assert lines[n + i] == wraps[i];
    }
  }

  lemma PreludeEndsInNewline(tools: seq<ToolSchema>)
    ensures EmptyOrEndsInNewline(Prelude(tools))
  {
    var lines := PreludeLines(tools);
    if lines != [] {
      var last := LineText(lines[|lines| - 1]);
      assert last[|last| - 1] == '\n';
    }
  }

  // ---------------------------------------------------------------------
  // Names the prelude can declare
  // ---------------------------------------------------------------------

  const LUA_KEYWORDS: set<string> := {
    "and", "break", "do", "else", "elseif", "end", "false", "for", "function", "goto", "if", "in",
    "local", "nil", "not", "or", "repeat", "return", "then", "true", "until", "while"}

  const DIALECT_NAMES: set<string> := {
    "tool", "string", "math", "table", "json", "tostring", "tonumber", "type", "select", "unpack",
    "pairs_sorted", "pairs", "ipairs", "pcall", "error", "log", "print", "debug", "io", "os", "package",
    "require", "load", "dofile", "loadfile", "loadstring", "collectgarbage", "setmetatable",
    "getmetatable", "rawget", "rawset", "setfenv", "getfenv", "coroutine"}

  /** The library tables the dialect rules list. */
  const LIBRARIES: set<string> := {"string", "math", "table", "json", "decimal"}

  predicate NameStart(c: char)
  {
    'a' <= c <= 'z' || 'A' <= c <= 'Z' || c == '_'
  }

  predicate IsName(s: string)
  {
    && s != [] && NameStart(s[0])
    && (forall i | 0 <= i < |s| :: NameStart(s[i]) || IsDigit(s[i]))
    && s !in LUA_KEYWORDS
  }

  predicate LuaNames(t: ToolSchema)
  {
    IsName(t.server) && t.server !in DIALECT_NAMES && IsName(t.name)
  }

  /** A prelude of accepted names hides exactly one library: a server called
      `decimal` is accepted, and it is the only library name that is. */
  lemma HiddenLibraries(t: ToolSchema)
    requires IsName(t.name)
    ensures LuaNames(t) && t.server in LIBRARIES <==> t.server == "decimal"
  {
    if t.server == "decimal" {
      assert t.server[0] == 'd' && |t.server| == 7;
    }
  }

  function LineName(line: Line): string
  {
    if line.Declare? then line.server else line.tool
  }

  lemma OneNewline(line: Line)
    requires '\n' !in LineName(line)
    ensures Newlines(LineText(line)) == 1
  {
    var x := LineName(line);
    NoNewline(x);
    match line
    case Declare(_) =>
      NoNewline(LOCAL);
      NoNewline(TABLE);
      NewlinesConcat(LOCAL, x);
      NewlinesConcat(LOCAL + x, TABLE);
      NewlinesConcat(LOCAL + x + TABLE, "\n");
    case Wrap(_) =>
      NoNewline(FUNCTION);
      NoNewline(END);
      NewlinesConcat(x, FUNCTION);
      NewlinesConcat(x + FUNCTION, x);
      NewlinesConcat(x + FUNCTION + x, END);
      NewlinesConcat(x + FUNCTION + x + END, "\n");
  }

  lemma {:induction false} LineCount(texts: seq<string>)
    requires forall text | text in texts :: Newlines(text) == 1
    ensures Newlines(Joined(texts)) == |texts|
  {
    if texts == [] {
    } else {
      LineCount(texts[..|texts| - 1]);
      NewlinesConcat(Joined(texts[..|texts| - 1]), texts[|texts| - 1]);
    }
  }

  lemma CleanLine(tools: seq<ToolSchema>, line: Line)
    requires forall t | t in tools :: LuaNames(t)
    requires line in PreludeLines(tools)
    ensures '\n' !in LineName(line)
  {
    if line in WrapLines(tools) {
      var i :| 0 <= i < |tools| && line == Wrap(QualifiedName(tools[i]));
      assert LuaNames(tools[i]);
    } else {
      assert line.server in ServersOf(tools);
      var t :| t in tools && t.server == line.server;
      assert LuaNames(t);
    }
  }

  /** With accepted names, the prelude has one source line per server and one
      per tool. */
  lemma PreludeLineCount(tools: seq<ToolSchema>)
    requires forall t | t in tools :: LuaNames(t)
    ensures Newlines(Prelude(tools)) == |InOrder(ServersOf(tools))| + |tools|
  {
    var lines := PreludeLines(tools);
    forall line | line in lines ensures Newlines(LineText(line)) == 1 {
      CleanLine(tools, line);
      OneNewline(line);
    }
    LineCount(LineTexts(lines));
  }
}
