/** What `execute` comes to, the answer it gets over MCP, and how the agent reads
    that answer. */
module Answers {
  import opened Text
  import opened Values
  import opened Tracing
  import Guard

  /** A broken prelude is a panic; names are checked at start-up so that it does
      not happen. */
  datatype ExecuteResult =
    | Ran(traceId: string, output: Option<string>, status: RunStatus)
    | LintError(line: nat, message: string)
    | StoreFailed
    | Panicked

  function StatusJson(status: RunStatus): Json
  {
    match status
    case RunOk => Obj(map["type" := Str("ok")])
    case RunError(kind, message) => Obj(map["type" := Str("error"), "kind" := Str(kind), "message" := Str(message)])
  }

  function ResponseMembers(parse: string -> Option<Json>, id: string, output: Option<string>, status: RunStatus)
    : map<string, Json>
  {
    var result := if output.Some? && parse(output.value).Some? then parse(output.value).value else Null;
    map["result" := result, "trace_id" := Str(id), "status" := StatusJson(status)]
  }

  const RECORDED := "\nThe run is recorded as trace "
  const CHECK_FIRST :=
    ", and any tool calls it made before failing have already happened, so check them before running it again."
  const NOT_STORED := "the trace could not be stored; the program's tool calls may have been made"

  /** `show` prints JSON. */
  function AnswerOf(parse: string -> Option<Json>, show: Json -> string, r: ExecuteResult): Guard.Answer
    requires !r.Panicked?
  {
    match r
    case Ran(id, output, status) =>
      var members := ResponseMembers(parse, id, output, status);
      (match status
       case RunOk => Guard.Replied(Guard.CallToolResult(false, members, [show(Obj(members))]))
       case RunError(kind, message) =>
         Guard.Replied(Guard.CallToolResult(
           true, members, [kind + ": " + message + RECORDED + id + CHECK_FIRST])))
    case LintError(line, message) =>
      Guard.Replied(Guard.CallToolResult(true, map[], ["line " + Digits(line) + ": " + message]))
    case StoreFailed => Guard.McpError(NOT_STORED)
  }

  lemma LintTextRecognised(line: nat, message: string)
    ensures Guard.LooksLikeLint("line " + Digits(line) + ": " + message)
  {
    var text, rest := "line " + Digits(line) + ": " + message, Digits(line) + (": " + message);
    assert text == "line " + rest;
    assert text[5..] == rest;
    DigitRunStops(Digits(line), ": " + message);
    assert rest[|Digits(line)|..] == ": " + message;
  }

  /** The agent reads every answer for what it is: it goes on after a run that
      succeeded and after a lint error, which are the two answers that leave no
      run half done. */
  lemma AnswerClassified(parse: string -> Option<Json>, show: Json -> string, r: ExecuteResult, attempt: nat)
    requires !r.Panicked?
    ensures Guard.RunOf(attempt, AnswerOf(parse, show, r)).outcome ==
            match r
            case Ran(_, _, RunOk) => Guard.OK
            case Ran(_, _, RunError(_, _)) => Guard.RUN_FAILED
            case LintError(_, _) => Guard.LINT_ERROR
            case StoreFailed => Guard.UNEXPECTED
  {
    if r.LintError? {
      var text := "line " + Digits(r.line) + ": " + r.message;
      LintTextRecognised(r.line, r.message);
      assert Joined([text]) == Joined([text][..0]) + text == text;
    }
  }

  /** The inverse of `StatusJson`. */
  function ReadStatus(v: Json): Option<RunStatus>
  {
    if !v.Obj? || "type" !in v.members then None
    else if v.members["type"] == Str("ok") then Some(RunOk)
    else if "kind" in v.members && v.members["kind"].Str? && "message" in v.members && v.members["message"].Str? then
      Some(RunError(v.members["kind"].s, v.members["message"].s))
    else None
  }

  /** The answer to a run carries its trace id, its status and the JSON of its
      output, and is an error exactly when the status is. */
  lemma AnswerCarries(
    parse: string -> Option<Json>, show: Json -> string, id: string, output: Option<string>, status: RunStatus)
    ensures var answer := AnswerOf(parse, show, Ran(id, output, status));
            && answer.Replied? && (answer.result.isError <==> status.RunError?)
            && var m := answer.result.structured;
               && m.Keys == {"result", "trace_id", "status"}
               && m["trace_id"] == Str(id) && ReadStatus(m["status"]) == Some(status)
               && (output.Some? && parse(output.value).Some? ==> Some(m["result"]) == parse(output.value))
               && (output.None? ==> m["result"] == Null)
  {
  }

  ghost predicate Mentions(text: string, part: string)
  {
    exists before, after :: text == before + part + after
  }

  /** What the agent is told when nothing succeeded: of a failed run, first its
      kind and message, and further on its trace; of a lint error, line and message. */
  lemma AnswerTells(parse: string -> Option<Json>, show: Json -> string, r: ExecuteResult)
    requires !r.Panicked?
    ensures r.Ran? && r.status.RunError? ==>
      var text := Guard.RunOf(1, AnswerOf(parse, show, r)).error;
      text.Some? && r.status.kind + ": " + r.status.message + "\n" <= text.value && Mentions(text.value, r.traceId)
    ensures r.LintError? ==>
      exists text :: Guard.RunOf(1, AnswerOf(parse, show, r)).error == Some(text)
                     && Guard.IsLintText(text, Digits(r.line), r.message)
  {
    match r
    case Ran(id, _, RunError(kind, message)) =>
      var lead := kind + ": " + message + RECORDED;
      var text := lead + id + CHECK_FIRST;
      Single(text);
      assert RECORDED[0] == '\n';
      assert kind + ": " + message + "\n" <= lead;
      assert Mentions(text, id);
    case LintError(line, message) =>
      var text := "line " + Digits(line) + ": " + message;
      Single(text);
      assert text == "line " + (Digits(line) + (": " + message));
      assert Guard.IsLintText(text, Digits(line), message);
    case _ =>
  }

  lemma Single(text: string)
    ensures Joined([text]) == text
  {
    assert Joined([text]) == Joined([text][..0]) + text;
  }
}
