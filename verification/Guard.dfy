/** The demo agent's guard: how it reads a gateway answer, and when it stops. */
module Guard {
  import opened Text
  import opened Values

  // ---------------------------------------------------------------------
  // Results
  // ---------------------------------------------------------------------

  /** A raw MCP tool result. An absent structured content is an empty one, and a
      block without text contributes nothing. */
  datatype CallToolResult = CallToolResult(isError: bool, structured: map<string, Json>, content: seq<string>)

  datatype Outcome = OK | LINT_ERROR | RUN_FAILED | UNEXPECTED

  function ResultText(result: CallToolResult): string
  {
    Joined(result.content)
  }

  /** The text starts `line <digits>: `. */
  predicate LooksLikeLint(text: string)
  {
    && "line " <= text
    && var rest := text[5..];
       DigitRun(rest) > 0 && ": " <= rest[DigitRun(rest)..]
  }

  function Classify(result: CallToolResult): Outcome
  {
    if !result.isError then (if "trace_id" in result.structured then OK else UNEXPECTED)
    else if "trace_id" in result.structured then RUN_FAILED
    else if LooksLikeLint(ResultText(result)) then LINT_ERROR
    else UNEXPECTED
  }

  /** `text` is `line`, a number, a colon and a message. */
  ghost predicate IsLintText(text: string, digits: string, message: string)
  {
    && digits != [] && (forall i | 0 <= i < |digits| :: IsDigit(digits[i]))
    && text == "line " + (digits + (": " + message))
  }

  ghost predicate OfLintForm(text: string)
  {
    exists digits, message :: IsLintText(text, digits, message)
  }

  lemma LintFormOf(text: string)
    requires LooksLikeLint(text)
    ensures OfLintForm(text)
  {
    var rest := text[5..];
    var n := DigitRun(rest);
    var digits, message := rest[..n], rest[n + 2..];
    assert rest[n..] == ": " + message;
    assert rest == digits + (": " + message);
    assert text == "line " + rest;
    assert IsLintText(text, digits, message);
  }

  lemma LintFormLooks(text: string, digits: string, message: string)
    requires IsLintText(text, digits, message)
    ensures LooksLikeLint(text)
  {
    assert text[5..] == digits + (": " + message);
    DigitRunStops(digits, ": " + message);
    assert text[5..][|digits|..] == ": " + message;
  }

  lemma LintTextExact(text: string)
    ensures LooksLikeLint(text) <==> OfLintForm(text)
  {
    if LooksLikeLint(text) {
      LintFormOf(text);
    }
    if digits, message :| IsLintText(text, digits, message) {
      LintFormLooks(text, digits, message);
    }
  }

  /** What every result is taken for. */
  lemma ClassifiedExactly(result: CallToolResult)
    ensures var ran := "trace_id" in result.structured;
            && (Classify(result) == OK <==> !result.isError && ran)
            && (Classify(result) == RUN_FAILED <==> result.isError && ran)
            && (Classify(result) == LINT_ERROR <==>
                  result.isError && !ran && OfLintForm(Joined(result.content)))
  {
    LintTextExact(Joined(result.content));
  }

  // ---------------------------------------------------------------------
  // Replies
  // ---------------------------------------------------------------------

  datatype ToolCall = ToolCall(id: string, name: string, args: map<string, Json>)

  /** A reply of the model with its tool calls, or any other message. */
  datatype Message = Ai(calls: seq<ToolCall>) | Other

  function Executes(calls: seq<ToolCall>): (r: seq<ToolCall>)
    ensures forall c :: c in r <==> c in calls && c.name == "execute"
  {
    if calls == [] then []
    else
      var rest := Executes(calls[1..]);
      assert calls == [calls[0]] + calls[1..];
      if calls[0].name == "execute" then [calls[0]] + rest else rest
  }

  predicate HasId(calls: seq<ToolCall>, id: string)
  {
    exists c | c in calls :: c.id == id
  }

  /** `None` is the index error of a reply that has the id on another tool only. */
  function FirstOf(calls: seq<ToolCall>, id: string): Option<bool>
  {
    var executes := Executes(calls);
    if executes == [] then None else Some(executes[0].id == id)
  }

  /** Newest message first: the first reply that has the id decides. */
  function FirstExecuteOfItsReply(messages: seq<Message>, id: string): Option<bool>
  {
    if messages == [] then Some(false)
    else
      var last := messages[|messages| - 1];
      if last.Ai? && HasId(last.calls, id) then FirstOf(last.calls, id)
      else FirstExecuteOfItsReply(messages[..|messages| - 1], id)
  }

  method FindFirstExecute(messages: seq<Message>, id: string) returns (r: Option<bool>)
    ensures r == FirstExecuteOfItsReply(messages, id)
  {
    var n := |messages|;
    assert messages[..n] == messages;
    while n > 0
      invariant 0 <= n <= |messages|
      invariant FirstExecuteOfItsReply(messages, id) == FirstExecuteOfItsReply(messages[..n], id)
    {
      var last := messages[n - 1];
      assert messages[..n][..n - 1] == messages[..n - 1];
      if last.Ai? && HasId(last.calls, id) {
        return FirstOf(last.calls, id);
      }
      n := n - 1;
    }
    r := Some(false);
  }

  predicate IsExecute(calls: seq<ToolCall>, p: nat)
  {
    p < |calls| && calls[p].name == "execute"
  }

  /** The position of the reply's first `execute`. */
  function FirstAt(calls: seq<ToolCall>): (r: Option<nat>)
    ensures r.Some? ==> IsExecute(calls, r.value) && (forall q: nat | q < r.value :: !IsExecute(calls, q))
    ensures r.Some? ==> Executes(calls) != [] && Executes(calls)[0] == calls[r.value]
    ensures r.None? ==> forall q: nat :: !IsExecute(calls, q)
  {
    if calls == [] then None
    else if calls[0].name == "execute" then Some(0)
    else
      var rest := FirstAt(calls[1..]);
      assert forall q: nat | 0 < q :: IsExecute(calls, q) <==> IsExecute(calls[1..], q - 1);
      if rest.None? then None else Some(rest.value + 1)
  }

  /** The call at `p` is an `execute` with the id of the reply's first one. */
  predicate HasFirstId(calls: seq<ToolCall>, p: nat)
  {
    IsExecute(calls, p) && FirstAt(calls).Some? && calls[p].id == calls[FirstAt(calls).value].id
  }

  /** No other `execute` of the reply repeats the first one's id. */
  ghost predicate FirstUnrepeated(calls: seq<ToolCall>)
  {
    forall p: nat | HasFirstId(calls, p) :: FirstAt(calls) == Some(p)
  }

  /** For an `execute` of the newest reply, the scan says whether the call has the
      id of that reply's first `execute`; it never fails. */
  lemma FirstExecuteExact(messages: seq<Message>, p: nat)
    requires messages != [] && messages[|messages| - 1].Ai? && IsExecute(messages[|messages| - 1].calls, p)
    ensures var calls := messages[|messages| - 1].calls;
            FirstExecuteOfItsReply(messages, calls[p].id) == Some(HasFirstId(calls, p))
  {
    var calls := messages[|messages| - 1].calls;
    assert calls[p] in calls && FirstAt(calls).Some?;
  }

  // ---------------------------------------------------------------------
  // The guard
  // ---------------------------------------------------------------------

  datatype Stop = ENDED | STOP_RUN_FAILED | STOP_UNEXPECTED | LINT_ERRORS | RUN_CAP | MODEL_CALLS

  datatype Run = Run(attempt: nat, outcome: Outcome, traceId: Option<Json>, result: Option<Json>, error: Option<string>)

  /** The agent's task and its limits. The limits are plain integers. */
  datatype Task = Task(task: string, session: string, maxLintStreak: int, maxRuns: int, maxModelCalls: int)

  datatype GuardState = GuardState(
    lintStreak: nat, successes: nat, modelCalls: nat, runs: seq<Run>, stop: Option<Stop>)

  const NEW := GuardState(0, 0, 0, [], None)

  /** What a sent call came back with: a result, or a protocol error. */
  datatype Answer = Replied(result: CallToolResult) | McpError(message: string)

  function Stopped(g: GuardState, why: Stop): GuardState
  {
    if g.stop.None? then g.(stop := Some(why)) else g
  }

  /** Before the model is asked: the new state, and whether it is asked. */
  function BeforeModel(task: Task, g: GuardState): (GuardState, bool)
  {
    var h := if g.stop.None? && g.modelCalls >= task.maxModelCalls then Stopped(g, MODEL_CALLS) else g;
    if h.stop.Some? then (h, false) else (h.(modelCalls := h.modelCalls + 1), true)
  }

  datatype Admission = Send | Refused | Raised

  /** Once the lock is held: the new state, and whether the call is sent. */
  function Admit(task: Task, g: GuardState, messages: seq<Message>, id: string): (GuardState, Admission)
  {
    var h := if g.stop.None? && g.successes >= task.maxRuns then Stopped(g, RUN_CAP) else g;
    if h.stop.Some? then (h, Refused)
    else
      match FirstExecuteOfItsReply(messages, id)
      case None => (h, Raised)
      case Some(first) => (h, if first then Send else Refused)
  }

  function Get(m: map<string, Json>, k: string): Option<Json>
  {
    if k in m then Some(m[k]) else None
  }

  function RunOf(attempt: nat, answer: Answer): (run: Run)
    ensures run.attempt == attempt
    ensures run.outcome == if answer.Replied? then Classify(answer.result) else UNEXPECTED
    ensures run.traceId.Some? <==> answer.Replied? && "trace_id" in answer.result.structured
    ensures run.traceId.Some? ==> run.traceId.value == answer.result.structured["trace_id"]
    ensures run.error.None? <==> run.outcome.OK?
    ensures run.error.Some? ==> run.error.value == if answer.Replied? then ResultText(answer.result) else answer.message
    ensures run.result.Some? <==> run.outcome.OK? && "result" in answer.result.structured
    ensures run.result.Some? ==> run.result.value == answer.result.structured["result"]
  {
    match answer
    case McpError(e) => Run(attempt, UNEXPECTED, None, None, Some(e))
    case Replied(result) =>
      var outcome := Classify(result);
      Run(attempt, outcome, Get(result.structured, "trace_id"),
          if outcome.OK? then Get(result.structured, "result") else None,
          if outcome.OK? then None else Some(ResultText(result)))
  }

  function Note(task: Task, g: GuardState, run: Run): GuardState
  {
    var h := g.(runs := g.runs + [run]);
    match run.outcome
    case OK => h.(successes := h.successes + 1, lintStreak := 0)
    case LINT_ERROR =>
      var k := h.(lintStreak := h.lintStreak + 1);
      if k.lintStreak >= task.maxLintStreak then Stopped(k, LINT_ERRORS) else k
    case RUN_FAILED => Stopped(h, STOP_RUN_FAILED)
    case UNEXPECTED => Stopped(h, STOP_UNEXPECTED)
  }

  /** The state after a sent call's answer. */
  function Settle(task: Task, g: GuardState, answer: Answer): GuardState
  {
    Note(task, g, RunOf(|g.runs| + 1, answer))
  }

  /** An error that is neither a failed run nor a lint text stops the agent, as
      does a success without a trace id. */
  lemma OtherAnswersStop(task: Task, g: GuardState, result: CallToolResult)
    requires g.stop.None? && "trace_id" !in result.structured
    requires !result.isError || !OfLintForm(Joined(result.content))
    ensures Settle(task, g, Replied(result)).stop == Some(STOP_UNEXPECTED)
  {
    ClassifiedExactly(result);
  }

  lemma AlmostLint(task: Task, g: GuardState)
    requires g.stop.None?
    ensures Settle(task, g, Replied(CallToolResult(true, map[], ["line 3 went wrong"]))).stop == Some(STOP_UNEXPECTED)
  {
    var text := "line 3 went wrong";
    assert Joined([text]) == Joined([text][..0]) + text == text;
    var rest := text[5..];
    assert rest[0] == '3' && rest[1] == ' ' && rest[1..][0] == ' ';
    assert DigitRun(rest[1..]) == 0 && DigitRun(rest) == 1;
    assert rest[1..][0] != ": "[0];
    LintTextExact(text);
  }

  /** The arguments sent: `request` and `session` are the agent's own. */
  function SentArgs(task: Task, args: map<string, Json>): (sent: map<string, Json>)
    ensures sent.Keys == args.Keys + {"request", "session"}
    ensures sent["request"] == Str(task.task) && sent["session"] == Str(task.session)
    ensures forall k | k in args && k != "request" && k != "session" :: sent[k] == args[k]
  {
    args["request" := Str(task.task)]["session" := Str(task.session)]
  }

  predicate Succeeded(g: GuardState)
  {
    g.stop == Some(ENDED) && exists i | 0 <= i < |g.runs| :: g.runs[i].outcome.OK?
  }

  // ---------------------------------------------------------------------
  // The guard and the raw results as objects
  // ---------------------------------------------------------------------

  class RawResults {
    var results: map<string, CallToolResult>

    constructor ()
      ensures results == map[]
    {
      results := map[];
    }

    /** The interceptor, once the call's result is in. */
    method Keep(name: string, result: CallToolResult)
      modifies this
      ensures results == old(results)[name := result]
    {
      results := results[name := result];
    }

    method Pop(name: string) returns (result: CallToolResult)
      requires name in results
      modifies this
      ensures result == old(results)[name] && results == old(results) - {name}
    {
      result := results[name];
      results := results - {name};
    }
  }

  class ExecuteGuard {
    const task: Task
    var lintStreak: nat
    var successes: nat
    var modelCalls: nat
    var runs: seq<Run>
    var stop: Option<Stop>

    ghost function State(): GuardState
      reads this
    {
      GuardState(lintStreak, successes, modelCalls, runs, stop)
    }

    constructor (task: Task)
      ensures this.task == task && State() == NEW
    {
      this.task := task;
      lintStreak, successes, modelCalls, runs, stop := 0, 0, 0, [], None;
    }

    method StopFor(why: Stop)
      modifies this`stop
      ensures State() == Stopped(old(State()), why)
    {
      if stop.None? {
        stop := Some(why);
      }
    }

    method AskModel() returns (asked: bool)
      modifies this
      ensures (State(), asked) == BeforeModel(task, old(State()))
    {
      if stop.None? && modelCalls >= task.maxModelCalls {
        StopFor(MODEL_CALLS);
      }
      if stop.Some? {
        return false;
      }
      modelCalls := modelCalls + 1;
      asked := true;
    }

    /** `awrap_tool_call` up to the call to the gateway. */
    method BeginExecute(messages: seq<Message>, id: string) returns (admission: Admission)
      modifies this
      ensures (State(), admission) == Admit(task, old(State()), messages, id)
    {
      if stop.None? && successes >= task.maxRuns {
        StopFor(RUN_CAP);
      }
      if stop.Some? {
        return Refused;
      }
      var first := FindFirstExecute(messages, id);
      admission := if first.None? then Raised else if first.value then Send else Refused;
    }

    method EndWithError(message: string)
      modifies this
      ensures State() == Settle(task, old(State()), McpError(message))
    {
      runs := runs + [Run(|runs| + 1, UNEXPECTED, None, None, Some(message))];
      StopFor(STOP_UNEXPECTED);
    }

    /** `awrap_tool_call` from the gateway's answer on. */
    method EndExecute(raw: RawResults)
      requires "execute" in raw.results
      modifies this, raw
      ensures State() == Settle(task, old(State()), Replied(old(raw.results)["execute"]))
      ensures raw.results == old(raw.results) - {"execute"}
    {
      var result := raw.Pop("execute");
      var outcome := Classify(result);
      var run := Run(|runs| + 1, outcome, Get(result.structured, "trace_id"), None, None);
      match outcome
      case OK =>
        runs := runs + [run.(result := Get(result.structured, "result"))];
        successes := successes + 1;
        lintStreak := 0;
      case LINT_ERROR =>
        runs := runs + [run.(error := Some(ResultText(result)))];
        lintStreak := lintStreak + 1;
        if lintStreak >= task.maxLintStreak {
          StopFor(LINT_ERRORS);
        }
      case _ =>
        runs := runs + [run.(error := Some(ResultText(result)))];
        StopFor(if outcome.RUN_FAILED? then STOP_RUN_FAILED else STOP_UNEXPECTED);
    }
  }
}
