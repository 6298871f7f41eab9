/** Whole runs of the agent: every interleaving of one reply's tool calls, every
    lock order, every answer. */
module GuardRuns {
  import opened Text
  import opened Chains
  import opened Values
  import opened Guard

  // ---------------------------------------------------------------------
  // The machine
  // ---------------------------------------------------------------------

  /** Between replies; the model asked; its tools running; the graph ended. */
  datatype Turn = Ready | Asked | Tools | Ended

  /** The lock: free, held by a call that was sent, or by one whose result the
      interceptor has kept. */
  datatype Lock = Free | Sending(call: nat) | Delivered(call: nat, result: CallToolResult)

  datatype Sent = Sent(id: string, args: map<string, Json>)

  function SentOf(task: Task, call: ToolCall): Sent
  {
    Sent(call.id, SentArgs(task, call.args))
  }

  /** Calls are named by their position in the current reply. `base` and
      `before` are the guard and the sent calls when that reply came; `served`
      its `execute` calls in the order they got the lock, once done; `answer`
      what its last sent call came back with. */
  datatype World = World(
    turn: Turn, guard: GuardState, messages: seq<Message>, waiting: set<nat>, lock: Lock,
    raw: map<string, CallToolResult>, sent: seq<Sent>,
    base: GuardState, before: seq<Sent>, served: seq<nat>, answer: Option<Answer>)

  ghost predicate Init(w: World)
  {
    && w.turn.Ready? && w.guard == NEW && w.messages == [] && w.waiting == {} && w.lock.Free?
    && w.raw == map[] && w.sent == []
  }

  function Reply(w: World): seq<ToolCall>
  {
    if w.messages != [] && w.messages[|w.messages| - 1].Ai? then w.messages[|w.messages| - 1].calls else []
  }

  function Positions(n: nat): (r: set<nat>)
    ensures forall p: nat :: p in r <==> p < n
  {
    if n == 0 then {} else Positions(n - 1) + {n - 1}
  }

  /** The model is asked only when every tool call of the last reply is done. */
  ghost predicate Ask(task: Task, w: World, w': World)
  {
    && (w.turn.Ready? || (w.turn.Tools? && w.waiting == {} && w.lock.Free?))
    && var (g, asked) := BeforeModel(task, w.guard);
       w' == w.(guard := g, turn := if asked then Asked else Ended)
  }

  /** A reply, after the earlier calls' tool messages. One without tool calls
      ends the graph. */
  ghost predicate Answered(w: World, w': World, tools: seq<Message>, calls: seq<ToolCall>)
  {
    && w.turn.Asked? && (forall m | m in tools :: m.Other?)
    && w' == w.(turn := if calls == [] then Ended else Tools,
                messages := w.messages + tools + [Ai(calls)], waiting := Positions(|calls|),
                base := w.guard, before := w.sent, served := [], answer := None)
  }

  /** After the graph: a run nothing stopped has ended. */
  ghost predicate Close(w: World, w': World)
  {
    w.turn.Ended? && w' == w.(guard := Stopped(w.guard, ENDED))
  }

  /** A call other than `execute` takes no lock, and finishes at any time. */
  ghost predicate Others(w: World, w': World, p: nat, result: Option<CallToolResult>)
  {
    && w.turn.Tools? && p in w.waiting && p < |Reply(w)| && !IsExecute(Reply(w), p)
    && w' == w.(waiting := w.waiting - {p},
                raw := if result.Some? then w.raw[Reply(w)[p].name := result.value] else w.raw)
  }

  ghost predicate Acquire(task: Task, w: World, w': World, p: nat)
  {
    && w.turn.Tools? && p in w.waiting && IsExecute(Reply(w), p) && w.lock.Free?
    && var (g, admission) := Admit(task, w.guard, w.messages, Reply(w)[p].id);
       match admission
       case Send =>
         w' == w.(guard := g, waiting := w.waiting - {p}, lock := Sending(p),
                  sent := w.sent + [SentOf(task, Reply(w)[p])])
       case Refused => w' == w.(guard := g, waiting := w.waiting - {p}, served := w.served + [p])
       case Raised => false
  }

  /** The interceptor keeps the sent call's result. */
  ghost predicate Deliver(w: World, w': World, result: CallToolResult)
  {
    && w.lock.Sending?
    && w' == w.(lock := Delivered(w.lock.call, result), raw := w.raw["execute" := result])
  }

  /** The guard pops what is kept under `execute` and releases the lock. */
  ghost predicate Finish(task: Task, w: World, w': World)
  {
    && w.lock.Delivered? && "execute" in w.raw
    && var answer := Replied(w.raw["execute"]);
       w' == w.(guard := Settle(task, w.guard, answer), raw := w.raw - {"execute"}, lock := Free,
                served := w.served + [w.lock.call], answer := Some(answer))
  }

  /** The gateway answers with a protocol error. */
  ghost predicate Fail(task: Task, w: World, w': World, message: string)
  {
    && w.lock.Sending?
    && w' == w.(guard := Settle(task, w.guard, McpError(message)), lock := Free,
                served := w.served + [w.lock.call], answer := Some(McpError(message)))
  }

  ghost predicate Next(task: Task, w: World, w': World)
  {
    || Ask(task, w, w')
    || (exists tools, calls :: Answered(w, w', tools, calls))
    || Close(w, w')
    || (exists p, result :: Others(w, w', p, result))
    || (exists p :: Acquire(task, w, w', p))
    || (exists result :: Deliver(w, w', result))
    || Finish(task, w, w')
    || (exists message :: Fail(task, w, w', message))
  }

  ghost predicate Execution(task: Task, worlds: seq<World>)
  {
    worlds != [] && Init(worlds[0]) && Linked(Steps(task), worlds)
  }

  ghost function Steps(task: Task): (World, World) -> bool
  {
    (w, w') => Next(task, w, w')
  }

  // ---------------------------------------------------------------------
  // What the guard's own state always satisfies
  // ---------------------------------------------------------------------

  function AtLeast(low: nat, n: int): nat
  {
    if n < low then low else n
  }

  predicate Effects(o: Outcome)
  {
    o.RUN_FAILED? || o.UNEXPECTED?
  }

  function Count(runs: seq<Run>): nat
  {
    if runs == [] then 0 else Count(runs[..|runs| - 1]) + if runs[|runs| - 1].outcome.OK? then 1 else 0
  }

  /** How many lint errors the runs end in. */
  function Streak(runs: seq<Run>): nat
  {
    if runs == [] || !runs[|runs| - 1].outcome.LINT_ERROR? then 0 else 1 + Streak(runs[..|runs| - 1])
  }

  function LastOutcome(runs: seq<Run>): Option<Outcome>
  {
    if runs == [] then None else Some(runs[|runs| - 1].outcome)
  }

  /** The counters mean what they say, only the last run may have failed, and the
      stop names its true cause. */
  ghost predicate GuardOk(task: Task, g: GuardState)
  {
    && g.successes == Count(g.runs) <= AtLeast(0, task.maxRuns)
    && g.modelCalls <= AtLeast(0, task.maxModelCalls)
    && History(g.runs) && Causes(task, g)
  }

  /** Runs are numbered from 1, and only the last may have failed. */
  ghost predicate History(runs: seq<Run>)
  {
    && (forall i | 0 <= i < |runs| - 1 :: !Effects(runs[i].outcome))
    && (forall i | 0 <= i < |runs| :: runs[i].attempt == i + 1)
  }

  lemma HistoryExtends(runs: seq<Run>, run: Run)
    requires History(runs) && run.attempt == |runs| + 1
    requires runs == [] || !Effects(runs[|runs| - 1].outcome)
    ensures History(runs + [run])
  {
    var more := runs + [run];
    forall i | 0 <= i < |more| - 1 ensures !Effects(more[i].outcome) {
      assert more[i] == runs[i];
    }
  }

  /** What noting a run does to each part of the state. */
  lemma NoteParts(task: Task, g: GuardState, run: Run)
    requires g.stop.None?
    ensures var h := Note(task, g, run);
            && h.runs == g.runs + [run] && h.modelCalls == g.modelCalls
            && h.successes == g.successes + (if run.outcome.OK? then 1 else 0)
            && (!Effects(run.outcome) ==> h.lintStreak == if run.outcome.OK? then 0 else g.lintStreak + 1)
            && h.stop == match run.outcome
                         case OK => None
                         case LINT_ERROR => if g.lintStreak + 1 >= task.maxLintStreak then Some(LINT_ERRORS) else None
                         case RUN_FAILED => Some(STOP_RUN_FAILED)
                         case UNEXPECTED => Some(STOP_UNEXPECTED)
  {
  }

  ghost predicate Causes(task: Task, g: GuardState)
  {
    && (LastOutcome(g.runs).None? || !Effects(LastOutcome(g.runs).value) ==> g.lintStreak == Streak(g.runs))
    && (LastOutcome(g.runs) == Some(RUN_FAILED) <==> g.stop == Some(STOP_RUN_FAILED))
    && (LastOutcome(g.runs) == Some(UNEXPECTED) <==> g.stop == Some(STOP_UNEXPECTED))
    && (Streak(g.runs) >= AtLeast(1, task.maxLintStreak) <==> g.stop == Some(LINT_ERRORS))
    && (g.stop == Some(RUN_CAP) ==> g.successes >= task.maxRuns)
    && (g.stop == Some(MODEL_CALLS) ==> g.modelCalls >= task.maxModelCalls)
  }

  /** Between two successes there are fewer lint errors than the limit. */
  ghost predicate Bounded(task: Task, g: GuardState)
  {
    var streak := AtLeast(1, task.maxLintStreak);
    && |g.runs| <= AtLeast(0, task.maxRuns) * streak
    && (g.stop.None? ==> |g.runs| <= g.successes * streak + g.lintStreak && g.lintStreak < streak)
  }

  /** There is room under the bound for one more run. */
  lemma Room(successes: nat, maxRuns: nat, streak: nat, runs: nat, lint: nat)
    requires successes < maxRuns && lint < streak && runs <= successes * streak + lint
    ensures runs + 1 <= maxRuns * streak && (successes + 1) * streak == successes * streak + streak
  {
    assert (successes + 1) * streak <= maxRuns * streak;
  }

  lemma RunsExtend(runs: seq<Run>, run: Run)
    ensures var runs' := runs + [run];
            && LastOutcome(runs') == Some(run.outcome)
            && Count(runs') == Count(runs) + (if run.outcome.OK? then 1 else 0)
            && Streak(runs') == if run.outcome.LINT_ERROR? then Streak(runs) + 1 else 0
  {
    assert (runs + [run])[..|runs|] == runs;
  }

  lemma NoteKeepsCauses(task: Task, g: GuardState, run: Run)
    requires Causes(task, g) && g.stop.None? && g.successes < task.maxRuns
    ensures Causes(task, Note(task, g, run))
  {
    NoteParts(task, g, run);
    RunsExtend(g.runs, run);
  }

  lemma NoteKeepsGuardOk(task: Task, g: GuardState, run: Run)
    requires GuardOk(task, g) && g.stop.None? && g.successes < task.maxRuns && run.attempt == |g.runs| + 1
    ensures GuardOk(task, Note(task, g, run))
  {
    NoteParts(task, g, run);
    RunsExtend(g.runs, run);
    HistoryExtends(g.runs, run);
    NoteKeepsCauses(task, g, run);
  }

  lemma NoteKeepsBounded(task: Task, g: GuardState, run: Run)
    requires Bounded(task, g) && g.stop.None? && g.successes < task.maxRuns
    ensures Bounded(task, Note(task, g, run))
  {
    Room(g.successes, AtLeast(0, task.maxRuns), AtLeast(1, task.maxLintStreak), |g.runs|, g.lintStreak);
  }

  // ---------------------------------------------------------------------
  // What every reachable world satisfies
  // ---------------------------------------------------------------------

  /** The reply finds the guard with a run to spare. */
  predicate Open(task: Task, base: GuardState)
  {
    base.successes < task.maxRuns
  }

  /** The guard once the sent call `c` is settled. A call that gets the lock
      after the cap-th success finds the cap; nothing else depends on the order. */
  function After(task: Task, base: GuardState, answer: Answer, served: seq<nat>, c: nat): GuardState
  {
    var g := Settle(task, base, answer);
    if served != [] && served[|served| - 1] != c && g.stop.None? && g.successes >= task.maxRuns
    then g.(stop := Some(RUN_CAP)) else g
  }

  /** Nothing of the reply has been sent. */
  ghost predicate Quiet(w: World, g: GuardState)
  {
    w.lock.Free? && w.sent == w.before && w.guard == g
  }

  /** An open reply, whose first `execute` is at `c`: waiting, sent, or settled. */
  ghost predicate Turned(task: Task, w: World, c: nat)
    requires c < |Reply(w)|
  {
    && (c in w.waiting ==> c !in w.served && Quiet(w, w.base))
    && (c !in w.waiting ==> w.sent == w.before + [SentOf(task, Reply(w)[c])])
    && (c !in w.waiting && c !in w.served ==> !w.lock.Free? && w.lock.call == c && w.guard == w.base)
    && (c in w.served ==> w.lock.Free? && w.answer.Some? && w.guard == After(task, w.base, w.answer.value, w.served, c))
  }

  /** Every `execute` of the reply waits, holds the lock or is served. */
  ghost predicate Accounted(w: World)
  {
    && w.messages != [] && w.messages[|w.messages| - 1].Ai?
    && (forall p | p in w.waiting :: p < |Reply(w)|)
    && (forall p | p in w.served :: IsExecute(Reply(w), p))
    && (!w.lock.Free? ==> IsExecute(Reply(w), w.lock.call))
    && (forall p: nat | IsExecute(Reply(w), p) ::
          p in w.waiting || p in w.served || (!w.lock.Free? && p == w.lock.call))
    && w.base.stop.None?
  }

  /** A reply that does not repeat its first `execute`, in closed form. */
  ghost predicate TurnOk(task: Task, w: World)
  {
    var first := FirstAt(Reply(w));
    if Open(task, w.base) && first.Some? then Turned(task, w, first.value)
    else Quiet(w, if w.served == [] then w.base else w.base.(stop := Some(RUN_CAP)))
         && (w.served != [] ==> !Open(task, w.base))
  }

  /** The one entry the guard reads is written only under the lock. */
  ghost predicate RawOk(w: World)
  {
    && ("execute" in w.raw <==> w.lock.Delivered?)
    && (w.lock.Delivered? ==> w.raw["execute"] == w.lock.result)
  }

  /** What was sent, against what was recorded. */
  ghost predicate Ledger(task: Task, w: World)
  {
    && RawOk(w)
    && |w.sent| == |w.guard.runs| + (if w.lock.Free? then 0 else 1)
    && (forall s | s in w.sent :: Labelled(task, s))
    && (!w.lock.Free? ==> w.turn.Tools? && w.guard.stop.None? && w.guard.successes < task.maxRuns)
    && (w.turn.Asked? ==> w.guard.stop.None?)
    && (w.turn.Asked? || w.turn.Tools? || w.sent != [] ==> w.guard.modelCalls > 0)
  }

  /** No reply so far repeats its first `execute`. */
  ghost predicate Unrepeated(messages: seq<Message>)
  {
    forall i | 0 <= i < |messages| && messages[i].Ai? :: FirstUnrepeated(messages[i].calls)
  }

  /** What was sent, against how often the model was asked. */
  ghost predicate OnePerAsk(w: World)
  {
    && |w.sent| <= w.guard.modelCalls
    && (w.turn.Asked? ==> |w.sent| < w.guard.modelCalls)
    && (w.turn.Tools? ==> |w.before| < w.guard.modelCalls)
  }

  ghost predicate WorldOk(task: Task, w: World)
  {
    && GuardOk(task, w.guard) && Bounded(task, w.guard) && Ledger(task, w)
    && (w.turn.Tools? ==> Accounted(w))
    && (w.turn.Tools? && FirstUnrepeated(Reply(w)) ==> TurnOk(task, w))
    && (Unrepeated(w.messages) ==> OnePerAsk(w))
  }

  /** Every run is recorded under the agent's own request and session. */
  ghost predicate Labelled(task: Task, s: Sent)
  {
    "request" in s.args && s.args["request"] == Str(task.task)
    && "session" in s.args && s.args["session"] == Str(task.session)
  }

  lemma AskKeeps(task: Task, w: World, w': World)
    requires WorldOk(task, w) && Ask(task, w, w')
    ensures WorldOk(task, w')
  {
  }

  lemma AnsweredStarts(task: Task, w: World, w': World, tools: seq<Message>, calls: seq<ToolCall>)
    requires Answered(w, w', tools, calls) && calls != [] && w.guard.stop.None? && w.lock.Free?
    ensures Accounted(w') && TurnOk(task, w')
  {
    assert Reply(w') == calls;
    var first := FirstAt(calls);
    if first.Some? {
      assert first.value in w'.waiting;
    }
  }

  lemma UnrepeatedBefore(messages: seq<Message>, more: seq<Message>)
    requires Unrepeated(messages + more)
    ensures Unrepeated(messages)
  {
    assert forall i | 0 <= i < |messages| :: (messages + more)[i] == messages[i];
  }

  lemma AnsweredKeeps(task: Task, w: World, w': World, tools: seq<Message>, calls: seq<ToolCall>)
    requires WorldOk(task, w) && Answered(w, w', tools, calls)
    ensures WorldOk(task, w')
  {
    if calls != [] {
      AnsweredStarts(task, w, w', tools, calls);
    }
    assert Ledger(task, w');
    if Unrepeated(w'.messages) {
      assert w'.messages == w.messages + (tools + [Ai(calls)]);
      UnrepeatedBefore(w.messages, tools + [Ai(calls)]);
    }
  }

  lemma CloseKeeps(task: Task, w: World, w': World)
    requires WorldOk(task, w) && Close(w, w')
    ensures WorldOk(task, w')
  {
  }

  lemma OthersKeepsReply(task: Task, w: World, w': World, p: nat, result: Option<CallToolResult>)
    requires Accounted(w) && Others(w, w', p, result)
    ensures Accounted(w') && Reply(w') == Reply(w) && (TurnOk(task, w) ==> TurnOk(task, w'))
  {
    assert Reply(w') == Reply(w);
    var first := FirstAt(Reply(w));
    assert first.Some? ==> first.value != p;
  }

  lemma OthersKeeps(task: Task, w: World, w': World, p: nat, result: Option<CallToolResult>)
    requires WorldOk(task, w) && Others(w, w', p, result)
    ensures WorldOk(task, w')
  {
    OthersKeepsReply(task, w, w', p, result);
    assert Ledger(task, w');
    assert OnePerAsk(w) ==> OnePerAsk(w');
  }

  /** What a call of the current reply finds when it gets the lock. */
  lemma AdmitExact(task: Task, w: World, p: nat)
    requires Accounted(w) && IsExecute(Reply(w), p)
    ensures Admit(task, w.guard, w.messages, Reply(w)[p].id)
         == if w.guard.stop.Some? then (w.guard, Refused)
            else if w.guard.successes >= task.maxRuns then (w.guard.(stop := Some(RUN_CAP)), Refused)
            else (w.guard, if HasFirstId(Reply(w), p) then Send else Refused)
  {
    FirstExecuteExact(w.messages, p);
  }

  lemma AcquireKeepsTurn(task: Task, w: World, w': World, p: nat)
    requires Accounted(w) && TurnOk(task, w) && FirstUnrepeated(Reply(w)) && Acquire(task, w, w', p)
    ensures TurnOk(task, w')
  {
    AdmitExact(task, w, p);
    var first := FirstAt(Reply(w));
    assert Reply(w') == Reply(w);
    assert first.Some?;
    assert HasFirstId(Reply(w), p) <==> first == Some(p);
    if Open(task, w.base) {
      assert Turned(task, w, first.value);
      assert Turned(task, w', first.value);
    }
  }

  lemma CapKeepsGuardOk(task: Task, g: GuardState)
    requires GuardOk(task, g) && Bounded(task, g) && g.stop.None? && g.successes >= task.maxRuns
    ensures var h := g.(stop := Some(RUN_CAP)); GuardOk(task, h) && Bounded(task, h)
  {
  }

  /** A reply that does not repeat its first `execute` sends at most one. */
  lemma TurnSends(task: Task, w: World)
    requires TurnOk(task, w)
    ensures |w.before| <= |w.sent| <= |w.before| + 1
  {
  }

  lemma AcquireKeepsLedger(task: Task, w: World, w': World, p: nat, send: bool)
    requires Ledger(task, w) && w.lock.Free? && w.turn.Tools? && p < |Reply(w)|
    requires w'.turn.Tools? && w'.raw == w.raw && w'.guard.runs == w.guard.runs
    requires w'.guard.modelCalls == w.guard.modelCalls
    requires if send then w'.lock == Sending(p) && w'.sent == w.sent + [SentOf(task, Reply(w)[p])]
                          && w'.guard.stop.None? && w'.guard.successes < task.maxRuns
             else w'.lock.Free? && w'.sent == w.sent
    ensures Ledger(task, w')
  {
  }

  lemma AcquireAccounted(task: Task, w: World, w': World, p: nat)
    requires Accounted(w) && Acquire(task, w, w', p)
    ensures Accounted(w')
  {
    assert Reply(w') == Reply(w);
  }

  lemma AcquireKeeps(task: Task, w: World, w': World, p: nat)
    requires WorldOk(task, w) && Acquire(task, w, w', p)
    ensures WorldOk(task, w')
  {
    AdmitExact(task, w, p);
    if w'.guard != w.guard {
      CapKeepsGuardOk(task, w.guard);
    }
    AcquireKeepsLedger(task, w, w', p, w'.lock.Sending?);
    AcquireAccounted(task, w, w', p);
    TurnKept(task, w, w');
    if FirstUnrepeated(Reply(w)) {
      AcquireKeepsTurn(task, w, w', p);
      TurnSends(task, w');
    }
  }

  /** A step within a reply keeps the reply. */
  lemma TurnKept(task: Task, w: World, w': World)
    requires w.turn.Tools? && Accounted(w) && w'.messages == w.messages
    ensures Reply(w') == Reply(w)
    ensures Unrepeated(w.messages) ==> FirstUnrepeated(Reply(w))
  {
    assert w.messages[|w.messages| - 1].Ai?;
  }

  lemma DeliverKeeps(task: Task, w: World, w': World, result: CallToolResult)
    requires WorldOk(task, w) && Deliver(w, w', result)
    ensures WorldOk(task, w')
  {
  }

  lemma SettleKeepsGuard(task: Task, g: GuardState, answer: Answer)
    requires GuardOk(task, g) && Bounded(task, g) && g.stop.None? && g.successes < task.maxRuns
    ensures var h := Settle(task, g, answer);
            GuardOk(task, h) && Bounded(task, h) && |h.runs| == |g.runs| + 1 && h.modelCalls == g.modelCalls
  {
    var run := RunOf(|g.runs| + 1, answer);
    NoteKeepsGuardOk(task, g, run);
    NoteKeepsBounded(task, g, run);
  }

  lemma SettleKeepsTurn(task: Task, w: World, w': World, answer: Answer, raw: map<string, CallToolResult>)
    requires TurnOk(task, w) && !w.lock.Free?
    requires w' == w.(guard := Settle(task, w.guard, answer), raw := raw, lock := Free,
                      served := w.served + [w.lock.call], answer := Some(answer))
    ensures TurnOk(task, w')
  {
    var first := FirstAt(Reply(w));
    assert Reply(w') == Reply(w);
    assert Turned(task, w, first.value);
    assert Turned(task, w', first.value);
  }

  lemma SettleKeepsLedger(task: Task, w: World, w': World)
    requires Ledger(task, w) && !w.lock.Free?
    requires w'.sent == w.sent && w'.lock.Free? && "execute" !in w'.raw && w'.turn == w.turn
    requires |w'.guard.runs| == |w.guard.runs| + 1 && w'.guard.modelCalls == w.guard.modelCalls
    ensures Ledger(task, w')
  {
  }

  lemma SettleAccounted(w: World, w': World)
    requires Accounted(w) && !w.lock.Free? && w'.lock.Free? && w'.messages == w.messages && w'.waiting == w.waiting
    requires w'.served == w.served + [w.lock.call] && w'.base == w.base
    ensures Accounted(w')
  {
    assert Reply(w') == Reply(w);
  }

  lemma SettleKeeps(task: Task, w: World, w': World, answer: Answer, raw: map<string, CallToolResult>)
    requires WorldOk(task, w) && !w.lock.Free? && IsExecute(Reply(w), w.lock.call) && "execute" !in raw
    requires w' == w.(guard := Settle(task, w.guard, answer), raw := raw, lock := Free,
                      served := w.served + [w.lock.call], answer := Some(answer))
    ensures WorldOk(task, w')
  {
    SettleKeepsGuard(task, w.guard, answer);
    SettleKeepsLedger(task, w, w');
    SettleAccounted(w, w');
    TurnKept(task, w, w');
    if FirstUnrepeated(Reply(w)) {
      SettleKeepsTurn(task, w, w', answer, raw);
      TurnSends(task, w');
    }
  }

  lemma NextKeeps(task: Task, w: World, w': World)
    requires WorldOk(task, w) && Next(task, w, w')
    ensures WorldOk(task, w')
  {
    if Ask(task, w, w') {
      AskKeeps(task, w, w');
    } else if tools, calls :| Answered(w, w', tools, calls) {
      AnsweredKeeps(task, w, w', tools, calls);
    } else if Close(w, w') {
      CloseKeeps(task, w, w');
    } else if p, result :| Others(w, w', p, result) {
      OthersKeeps(task, w, w', p, result);
    } else if p :| Acquire(task, w, w', p) {
      AcquireKeeps(task, w, w', p);
    } else if result :| Deliver(w, w', result) {
      DeliverKeeps(task, w, w', result);
    } else if Finish(task, w, w') {
      SettleKeeps(task, w, w', Replied(w.raw["execute"]), w.raw - {"execute"});
    } else {
      var message :| Fail(task, w, w', message);
      SettleKeeps(task, w, w', McpError(message), w.raw);
    }
  }

  lemma {:induction false} Reachable(task: Task, worlds: seq<World>, i: nat)
    requires Execution(task, worlds) && i < |worlds|
    ensures WorldOk(task, worlds[i])
  {
    if i == 0 {
    } else {
      Reachable(task, worlds, i - 1);
      LinkedAt(Steps(task), worlds, i - 1);
      NextKeeps(task, worlds[i - 1], worlds[i]);
    }
  }

  // ---------------------------------------------------------------------
  // Main results
  // ---------------------------------------------------------------------

  /** The executes sent are bounded by the limits on runs, whatever the model
      writes, and by the limit on model calls while no reply repeats its first
      `execute`. */
  lemma SentBounded(task: Task, worlds: seq<World>, i: nat)
    requires Execution(task, worlds) && i < |worlds|
    ensures |worlds[i].sent| <= AtLeast(0, task.maxRuns) * AtLeast(1, task.maxLintStreak)
    ensures Unrepeated(worlds[i].messages) ==> |worlds[i].sent| <= AtLeast(0, task.maxModelCalls)
  {
    Reachable(task, worlds, i);
    var g := worlds[i].guard;
    if !worlds[i].lock.Free? {
      Room(g.successes, AtLeast(0, task.maxRuns), AtLeast(1, task.maxLintStreak), |g.runs|, g.lintStreak);
    }
  }

  /** A report that succeeded holds a success, and only successes and lint
      errors. A stop for a failed run is there exactly when the last run failed. */
  lemma ReportTrue(task: Task, worlds: seq<World>, i: nat)
    requires Execution(task, worlds) && i < |worlds|
    ensures var g := worlds[i].guard;
            && (Succeeded(g) ==> forall k | 0 <= k < |g.runs| :: g.runs[k].outcome.OK? || g.runs[k].outcome.LINT_ERROR?)
            && (forall k | 0 <= k < |g.runs| && Effects(g.runs[k].outcome) :: k == |g.runs| - 1)
            && ((exists k | 0 <= k < |g.runs| :: Effects(g.runs[k].outcome))
                <==> g.stop == Some(STOP_RUN_FAILED) || g.stop == Some(STOP_UNEXPECTED))
            && (g.stop == Some(LINT_ERRORS) <==> Streak(g.runs) >= AtLeast(1, task.maxLintStreak))
            && g.successes == Count(g.runs)
    ensures forall s | s in worlds[i].sent :: Labelled(task, s)
  {
    Reachable(task, worlds, i);
    var g := worlds[i].guard;
    if g.stop == Some(STOP_RUN_FAILED) || g.stop == Some(STOP_UNEXPECTED) {
      assert Effects(g.runs[|g.runs| - 1].outcome);
    }
  }

  lemma StoppedStays(task: Task, w: World, w': World)
    requires w.lock.Free? && Next(task, w, w') && w.guard.stop.Some?
    ensures w'.guard == w.guard && w'.sent == w.sent
  {
    if p: nat :| Acquire(task, w, w', p) {
      assert Admit(task, w.guard, w.messages, Reply(w)[p].id) == (w.guard, Refused);
    }
  }

  /** Once the agent has stopped, nothing is sent, nothing is recorded and the
      model is not asked, for the rest of the run. */
  lemma {:induction false} Latched(task: Task, worlds: seq<World>, i: nat, j: nat)
    requires Execution(task, worlds) && i <= j < |worlds| && worlds[i].guard.stop.Some?
    ensures worlds[j].guard == worlds[i].guard && worlds[j].sent == worlds[i].sent
    decreases j
  {
    if i == j {
    } else {
      var k := j - 1;
      Latched(task, worlds, i, k);
      Reachable(task, worlds, k);
      LinkedAt(Steps(task), worlds, k);
      StoppedStays(task, worlds[k], worlds[j]);
    }
  }

  /** Nothing reaches the gateway after a failed or unexpected run. */
  lemma NothingAfterFailure(task: Task, worlds: seq<World>, i: nat, j: nat, k: nat)
    requires Execution(task, worlds) && i <= j < |worlds|
    requires k < |worlds[i].guard.runs| && Effects(worlds[i].guard.runs[k].outcome)
    ensures worlds[j].sent == worlds[i].sent && |worlds[j].sent| == k + 1
    ensures worlds[j].guard == worlds[i].guard
  {
    Reachable(task, worlds, i);
    Latched(task, worlds, i, j);
  }

  /** The result the guard pops is there, and is the sent call's own, whatever
      other calls finished in between. */
  lemma OwnResult(task: Task, worlds: seq<World>, i: nat)
    requires Execution(task, worlds) && i < |worlds| && worlds[i].lock.Delivered?
    ensures var w := worlds[i];
            && "execute" in w.raw && w.raw["execute"] == w.lock.result
            && forall w' | Finish(task, w, w') ::
                 w'.guard == Settle(task, w.guard, Replied(w.lock.result)) && "execute" !in w'.raw
  {
    Reachable(task, worlds, i);
  }

  /** Every `execute` of the current reply has had the lock and released it. */
  ghost predicate AllServed(w: World)
  {
    w.turn.Tools? && w.lock.Free? && forall p | p in w.waiting :: !IsExecute(Reply(w), p)
  }

  ghost predicate ServedForm(task: Task, w: World)
  {
    var first := FirstAt(Reply(w));
    if first.None? then w.sent == w.before && w.guard == w.base
    else if !Open(task, w.base) then w.sent == w.before && w.guard == w.base.(stop := Some(RUN_CAP))
    else w.sent == w.before + [SentOf(task, Reply(w)[first.value])]
         && w.answer.Some? && w.guard == After(task, w.base, w.answer.value, w.served, first.value)
  }

  /** A served reply, in closed form: its first `execute` is the one call sent,
      when a run is to spare, and the lock order shows only in whether some other
      call came after the cap-th success. */
  lemma ServedReply(task: Task, w: World)
    requires WorldOk(task, w) && AllServed(w) && FirstUnrepeated(Reply(w))
    ensures ServedForm(task, w)
    ensures w.base.stop.None? && (forall p | p in w.served :: IsExecute(Reply(w), p))
  {
    var first := FirstAt(Reply(w));
    assert w.served != [] ==> IsExecute(Reply(w), w.served[0]);
  }

  lemma ServedAt(task: Task, worlds: seq<World>, i: nat)
    requires Execution(task, worlds) && i < |worlds| && AllServed(worlds[i]) && FirstUnrepeated(Reply(worlds[i]))
    ensures ServedForm(task, worlds[i])
    ensures worlds[i].base.stop.None? && (forall p | p in worlds[i].served :: IsExecute(Reply(worlds[i]), p))
  {
    Reachable(task, worlds, i);
    ServedReply(task, worlds[i]);
  }

  lemma AfterAgrees(task: Task, base: GuardState, answer: Answer, s: seq<nat>, t: seq<nat>, c: nat)
    requires Open(task, base)
    ensures var (g, h) := (After(task, base, answer, s, c), After(task, base, answer, t, c));
            && g.runs == h.runs && g.successes == h.successes
            && g.lintStreak == h.lintStreak && g.modelCalls == h.modelCalls
            && (g.stop != h.stop ==>
                  && {g.stop, h.stop} == {None, Some(RUN_CAP)}
                  && LastOutcome(g.runs) == Some(OK) && g.successes == task.maxRuns)
  {
  }

  ghost predicate Agree(task: Task, a: World, b: World)
  {
    && a.sent == b.sent && |a.sent| <= |a.before| + 1
    && a.guard.runs == b.guard.runs && a.guard.successes == b.guard.successes
    && a.guard.lintStreak == b.guard.lintStreak && a.guard.modelCalls == b.guard.modelCalls
    && (a.guard.stop != b.guard.stop ==>
          && {a.guard.stop, b.guard.stop} == {None, Some(RUN_CAP)}
          && LastOutcome(a.guard.runs) == Some(OK) && a.guard.successes == task.maxRuns
          && |a.sent| == |a.before| + 1)
  }

  lemma SameReply(task: Task, a: World, b: World)
    requires ServedForm(task, a) && ServedForm(task, b)
    requires b.messages == a.messages && b.base == a.base && b.before == a.before && b.answer == a.answer
    ensures Agree(task, a, b)
  {
    var first := FirstAt(Reply(a));
    if first.Some? && Open(task, a.base) {
      AfterAgrees(task, a.base, a.answer.value, a.served, b.served, first.value);
    }
  }

  /** Any two lock orders of one reply that does not repeat its first `execute`,
      in any two runs: the same single call is
      sent, and with the same answer everything ends equal, except that `stop`
      may be unset in one and RUN_CAP in the other, when that call was the
      cap-th success. */
  lemma OrderIndependent(task: Task, xs: seq<World>, i: nat, ys: seq<World>, j: nat)
    requires Execution(task, xs) && i < |xs| && Execution(task, ys) && j < |ys|
    requires AllServed(xs[i]) && AllServed(ys[j]) && FirstUnrepeated(Reply(xs[i]))
    requires ys[j].messages == xs[i].messages
    requires ys[j].base == xs[i].base && ys[j].before == xs[i].before && ys[j].answer == xs[i].answer
    ensures Agree(task, xs[i], ys[j])
  {
    ServedAt(task, xs, i);
    ServedAt(task, ys, j);
    SameReply(task, xs[i], ys[j]);
  }
}
