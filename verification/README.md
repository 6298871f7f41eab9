# proveno-gateway: a verified model

proveno-gateway runs a Lua program that an agent wrote, checks every tool call
it makes, records the run in a signed trace, and claims that each stored run
"replays bit for bit". This project models that machinery in Dafny and proves
the claim, together with what it rests on.

The VM, proveno-core, is not part of the repository. It appears as a value of
type `Core`: arbitrary functions of which only the laws in `Core.Lawful` are
known. They are the laws the gateway relies on and tests: execution is
deterministic and metered, one record is kept per host call (unless a success
cannot be canonicalised), the program hash is a collision-free hash of bytecode
alone, line numbers show only in the wrapper of an uncaught error, the canonical
encoding of a table is JSON and decodes to the same table, and a tape that
diverges consumes nothing and stays diverged. Hashes are injective functions to hex keys, and signing is a scheme
whose own signatures verify (Ed25519, section 5.1 of RFC 8032). Every theorem
holds for every core and every downstream behaviour that meets this.

The main results, by component:

- **Concurrent executes over one store** (`Gateway`). A state machine over any
  number of `execute` calls, interleaved at every file operation, VM step and
  tool call, with I/O failures at any point and the process free to stop
  between any two steps. In every reachable state, every visible trace loads,
  verifies and replays with no mismatch (`EveryStoredTraceReplays`), names
  sources that hash to what it says (`VisibleTraceSources`), and describes its
  request, exactly the calls its run made and how it ended (`StoredEntries`); no
  tool call precedes both source writes (`WritesPrecedeCalls`); visible files
  never go away, and traces and descriptions never change
  (`VisibleFilesPersist`).
- **Replay** (`Replay`, `Core`). `matched` means exactly that the stored program
  is the recorded one, made the recorded calls and no others, and ended as
  recorded (`MatchedExact`), and each mismatch is reported exactly when what it
  says is so (`ReportExact`); so output, status kind, gas and memory are a
  function of bytecode, limits and records (`MatchedDetermined`).
- **The host over whole runs** (`Host`, `Run`). The log lines up with core's
  transcript, every request sent is one allowed entry whose arguments pass the
  allow-list, schema and policy checks, and attestation bytes reach the entry
  they belong to and no other. What a program reads from a call, and the
  provenance logged, are what the downstream's own reply stands for
  (`AnswerExact`).
- **Progress** (`Progress`, `Finishing`, `Engine`). A request as the engine
  performs it is a course of one thread of that machine (`Engine.Execute`); with
  nothing failing of itself it finishes exactly when no file is left under the
  temp names of its own puts (`FinishesExactly`), and a process that stops and
  starts again can leave one (`Restarted`); a stored program can change exactly
  when two requests share its hash and differ in source
  (`ProgramChangesExactly`).
- **The agent's guard** (`Guard`, `GuardRuns`, `GuardLimits`). For every lock
  order, every interleaving and every answer, nothing reaches the gateway after a
  failed run, and the executes sent are bounded, by bounds that are attained. A
  reply can send twice exactly when it repeats its first `execute`; otherwise the
  lock order inside it shows in one way only, and exactly when that is so is
  proved.
- **Agent and gateway together** (`Session`). Among the visible traces of one
  agent session at most one failed, and it is of the last call sent.
- **The translations these rest on**: JSON to tables and back (`Values`),
  provenance (`Provenance`), the policy (`Policy`), names and routing
  (`Downstream`), the description and prelude (`Description`,
  `Rendering`, `Reading`), line numbers (`Dialect`) and bearer tokens (`Tokens`).

`Engine` holds `execute` as one request performs it, over a store object, and
`Answers` ties the gateway's MCP answers to what the agent's guard makes of them.

Strings stand for byte strings, except in `Rendering`, where characters are
Unicode's. Integers are unbounded except
where the 64-bit ranges matter (`Values`, `Policy`, `Provenance`).

## What the code does that a reader may not expect

- A server named `decimal` is accepted although `decimal` is one of the
  dialect's libraries: `DIALECT_NAMES` omits it. `Description.HiddenLibraries`
  states that it is the only library a prelude can hide.
- A program file can change content while it is visible: two sources with one
  program hash may both pass the check for an existing file before either is
  renamed into place, although a comment in src/store.rs says that different
  content is an error. `Progress.ProgramChangesExactly` gives the exact
  condition. `VisibleFilesPersist` therefore excludes program files;
  whatever is there compiles to the same bytecode (`ProgramStored`).
- A temp file left by a process that stopped makes a put of a later process with
  the same process id fail once, with nothing else wrong: `write_atomic` takes
  one name, from process id and counter, and does not try another. If the put is
  the trace's, the tool calls have been made and there is no trace, against the
  comment on `execute`. `Finishing.Restarted` is such an execution and
  `Finishing.FinishesExactly` the exact condition.
- The guard's `stop` can differ with the lock order: a second `execute` of the
  reply that gets the lock after the cap-th success sets RUN_CAP, and before it
  sets nothing. `GuardLimits.OrderShowsExactly` gives the exact condition.
- A reply that repeats the id of its first `execute` sends the call again
  (`GuardLimits.SendsTwiceExactly`), so max_model_calls need not bound the
  executes sent; `GuardLimits.ExceedsModelCallsExactly` says for which limits it
  does not.
- An entry of the description is meant to be two lines, but a line break in a
  property's name goes through. `Rendering.TwoLinesExactly` gives the exact
  condition.
- JSON null as arguments counts as a request without arguments
  (`CataloguedToolRoutes`); a table JSON can describe never goes out as null
  (`Host.ArgumentRoundTrip`).

## Model

| member | source | states |
|---|---|---|
| `Gateway.EveryStoredTraceReplays` | src/replay.rs:38-155 | Replay completeness: in every state of every interleaving, with crashes, every visible trace loads, verifies and replays with no mismatch. |
| `Gateway.VisibleTraceSources` | src/engine.rs:116-132 | The program a visible trace names is stored and compiles to its program hash, and the description it names is stored and hashes to its description hash. |
| `Gateway.WritesPrecedeCalls` | src/engine.rs:124-132 | A thread that is running or has run has both sources in the store, so no tool call precedes the two writes. |
| `Gateway.Enforced` | src/engine.rs:168-185 | At every moment of every run, log and transcript have one length, each entry is permitted or refused as logged, and the requests sent are exactly those the entries stand for. |
| `Gateway.StoredEntries` | src/engine.rs:168-216 | What a visible trace says when it is read back: the session, principal, policy hash, limits and request of its own request, and the hashes of that request's sources; one entry per call in order, each permitted or refused under that principal's rules, with that call's decision and provenance; entries that account for every request sent; and the run's own output, status kind, gas and memory. |
| `Gateway.VisibleFilesPersist` | src/store.rs:98-138 | A visible file never goes away, and a visible trace or description never changes, over whole executions. |
| `Gateway.VisibleFilesStay` | src/store.rs:115-138 | The same over one step of any thread, a new request or a crash. |
| `Gateway.NoConflict` | src/store.rs:50-57 | An unfinished run's trace path is free, and a stored description is the one being put, so neither put can conflict. |
| `Gateway.Reachable` | src/engine.rs:109-227 | Every reachable state satisfies the store invariant: each visible file is one request's complete content and each thread's phase is backed by its files. |
| `Gateway.NextKeepsInv` | src/engine.rs:109-227 | Every step of any thread, a new request or a crash keeps that invariant. |
| `Gateway.ProgramStored` | src/engine.rs:121-129 | Whichever source with a program hash is stored, it compiles to the bytecode of every job with that hash; the reason a program conflict is not an error. |
| `Gateway.DescriptionStored` | src/engine.rs:131-132 | The description stored under a job's hash is that job's text. |
| `Gateway.DescribeBuilds` | src/description.rs:75-97 | The gateway's own description is one the results hold for: its hash is its text's and its prelude is closed with a newline. |
| `Gateway.SourceCompiles` | src/engine.rs:118-123 | The stored source compiles on its own to the job's program, and the engine's prelude line count is the compiler's offset. |
| `Gateway.RunMatches` | src/replay.rs:83-147 | A finished run's trace, replayed with any program of the same bytecode, has no mismatch. |
| `Gateway.LoadsTrace` | src/replay.rs:47-78 | A stored, signed trace whose program path compiles is loaded as written. |
| `Progress.ProgramChangesExactly` | src/store.rs:97-138 | Requests drawn from a given set can change the content of a visible program file if and only if two of them share a program hash and differ in source. |
| `Progress.ChangeNeedsTwo` | src/store.rs:97-113 | In every execution, a visible program that changes has two such requests behind it; otherwise it never changes. |
| `Progress.Race` | src/store.rs:98-138 | For any two requests with one program path, an execution, every file operation included, in which the program stored first is replaced by the other. |
| `Finishing.FinishesExactly` | src/engine.rs:105-227 | Of all the ways a request can run alone with no file operation failing of itself, whatever the downstreams answer, those that end end in `Done` if and only if no file is left under the temp names its own puts will use, its trace id is unused and a stored description is its own. |
| `Finishing.RequestEnds` | src/engine.rs:105-227 | From every reachable state, for a given process id and counter, such a run exists; it ends in `Done` with the request's own run if those temp names are free, and aborted otherwise. |
| `Finishing.LeftoverStrands` | src/store.rs:117-138 | With a file left under the trace put's temp name, a request makes its whole run and is then aborted without a trace, with nothing failing of itself; the left file is gone afterwards. |
| `Finishing.Restarted` | src/store.rs:117-138 | An execution that comes to it: a process stops while putting a trace and is started again with the same process id. |
| `Finishing.OnlyNamesObstruct` | src/store.rs:50-57 | In a reachable state nothing but such files can obstruct a new request. |
| `Finishing.FateKept` | src/store.rs:98-138 | No step without a fault changes whether a thread is bound to finish. |
| `Finishing.PutChain` | src/store.rs:98-138 | A put nobody disturbs: what is stored decides it; a file under its temp name fails it and is removed; otherwise it stores the content. |
| `Progress.RequestRuns` | src/engine.rs:109-227 | A request performed as a course of steps is a piece of an execution of the machine. |
| `Progress.CourseRuns` | src/engine.rs:109-227 | While one thread moves alone, the machine follows its course step by step. |
| `Progress.TrailIsCourse` | src/store.rs:98-138 | The file operations of a put are steps of the thread that puts. |
| `Progress.RunCourse` | src/engine.rs:146-166 | The steps of a run lead the thread from its start to the put of its trace, with the run's halted state. |
| `Engine.Execute` | src/engine.rs:109-227 | A lint error leaves the store untouched and nothing run; any other request, faults included, is a course of one thread of the machine that ends in `Done` with its own run exactly when a result is returned; the result is the stored trace's footer; no other visible file changes; the stored trace, read back, says what `Gateway.StoredEntries` requires of it and replays; and without a fault a result is returned if and only if nothing obstructs the request. |
| `Engine.ExecuteProgram` | src/engine.rs:112-227 | The same for a program that lints. |
| `Engine.RunAndStore` | src/engine.rs:134-216 | The trace stored is the run's own, under a path that was free; a failed store leaves it as it was; the stored trace, read back, is the request's and the run's own and replays; without a fault the store fails exactly on a used trace id or a file left under the put's temp name. |
| `Engine.StoreSources` | src/engine.rs:121-132 | The two writes are a course of the thread, touch no other visible file and end, on success, with both sources stored; a conflicting program is kept. |
| `Engine.RunAndSign` | src/engine.rs:144-215 | The signed trace is that of the job's run, which has halted; it verifies, and its header, entries and ending are the request's and the run's, as in `Gateway.StoredEntries`. |
| `Engine.RecordedReplays` | src/replay.rs:38-155 | A recorded run replays from the store while its program path holds its bytecode. |
| `Engine.ErrorAtOwnLine` | src/engine.rs:322-337 | A run-time error at a position of the stored source is reported at its line in the agent's program, and with no line when it lies in the prelude. |
| `Answers.AnswerClassified` | src/server.rs:256-303 | The agent classifies every answer of the gateway for what it is: success, failed run, lint error, or a store failure as unexpected. |
| `Answers.AnswerCarries` | src/server.rs:266-295 | The answer to a run carries its trace id, its status and the JSON of its output, and is an error exactly when the status is. |
| `Answers.AnswerTells` | src/server.rs:266-295 | A failed run's text begins with its kind and message and names the trace; a lint error's is its line and message in the form the agent looks for. |
| `Run.RunProgram` | src/engine.rs:146-190 | The loop over the host object reaches the run's one halted state; the length assertion holds, and the entries pair record i with log entry i. |
| `Run.RunCompletes` | src/engine.rs:146-190 | Every program comes to a halted state that satisfies the run invariant, whatever the downstreams answer. |
| `Run.AskHost` | src/host.rs:131-135 | Core's side of a call on the host object is the specified step: the attestation is asked for only after a success. |
| `Run.AdvanceKeepsInv` | src/engine.rs:168-185 | Every VM step keeps alignment, permitted entries, the account of requests and replayability, whatever the downstreams answer. |
| `Run.LoggedEntry` | src/host.rs:117-154 | The record and log entry of one call: the tape will answer as the host did, and the entry is permitted, attested by its own tag, and accounts for the requests sent. |
| `Run.PermittedRequests` | src/downstream.rs:94-116 | A permitted call sends exactly the request its entry stands for; the unknown-tool branches are not reached. |
| `Run.HaltedReplays` | src/replay.rs:87-100 | A halted run replayed over its own transcript halts in the same state with the tape used up. |
| `Host.GatewayHost.CallTool` | src/host.rs:71-129 | The call's new log, attestation, requests and reply are those of the specified host step. |
| `Host.GatewayHost.RefuseCall` | src/host.rs:64-67 | A refusal logs its decision as Unsigned and returns its message. |
| `Host.GatewayHost.TakeAttestation` | src/host.rs:133-135 | The blob is handed over and cleared. |
| `Host.GatewayHost.constructor` | src/host.rs:38-54 | A new host has an empty log and no attestation. |
| `Host.AllowedSchemas` | src/engine.rs:229-237 | Exactly the discovered tools on the principal's list. |
| `Host.ExamineExact` | src/host.rs:71-115 | A call is let through exactly when its arguments have a JSON form that is on the allow-list, fits the schema and meets the policy. |
| `Host.RefusalExact` | src/host.rs:73-115 | A refusal is the policy's exactly when the tool is not listed, or the schema accepts what the policy denies; the program is told the logged reason. |
| `Host.AcceptFacts` | src/host.rs:140-154 | An accepted response has a table that can be recorded and decoded again, and its bytes are its tag's, empty exactly for Unsigned. |
| `Host.AnswerExact` | src/host.rs:117-154 | A permitted call, from the downstream's own reply: it succeeds exactly when the reply is no error, reports nothing or one whole tag, and stands for a value with a table that can be recorded; the program then reads that value's table, whose JSON is the value's normal form, and the log has the tag reported. A failure is logged as Unsigned. |
| `Host.AcceptExact` | src/host.rs:140-154 | A reply is accepted exactly as the table of the value it stands for, with the tag reported and that tag's bytes. |
| `Host.RefusedExact` | src/host.rs:64-129 | A refused call logs the decision `Host.ExamineExact` and `Host.RefusalExact` determine, tells the program its reason and sends nothing; permitted arguments that are no object fail the call unsent. |
| `Host.CallFacts` | src/host.rs:56-129 | Each call adds one log entry; failed and refused calls are Unsigned; a success is allowed and can be recorded; only an allowed call sends. |
| `Host.HandOver` | src/host.rs:131-135 | After any sequence of calls and hand-overs, a blob waits exactly when the last event was a call with an attested response, and it is that response's. |
| `Host.HandedOnce` | src/host.rs:131-135 | A blob that can be taken after an earlier take comes from a call made since, so none is handed over twice. |
| `Host.ResponseRoundTrip` | src/values.rs:11-69 | A response's table goes back, through `table_to_json`, to the response's normal form (null members dropped, numbers outside i64 as text, empty arrays as empty objects), which is idempotent and has the same table. |
| `Host.ArgumentRoundTrip` | src/values.rs:11-25 | A table JSON can describe goes out through `table_to_json` as an object or array with the same table; an object is taken back to it by `json_to_table`. |
| `Core.FollowedExactly` | src/replay.rs:101-118 | A run follows a strict tape to its end exactly when it makes the recorded calls, in order, all of them. |
| `Core.TapeEnds` | src/replay.rs:101-118 | The tape at the end of a run, from the calls made: used as far as they are the recorded ones, and diverged at the first, if any, that is not. |
| `Replay.MatchedExact` | src/replay.rs:79-154 | `matched` holds exactly when program hash, calls made and the recorded ending all agree. |
| `Replay.MatchedDetermined` | src/replay.rs:87-99 | Two matched traces with one program hash, limits and records agree on output, status kind, gas and memory. |
| `Replay.ReportExact` | src/replay.rs:79-154 | One equivalence per mismatch, over the calls the run makes and the state it halts in: a divergence is reported exactly with the first call that parts from the recorded ones, and what each side has there; unconsumed calls, hash, output, status, gas and memory exactly when they depart; each once, in one order; and the report's own ending is that of the halted state. |
| `Replay.LoadExact` | src/replay.rs:47-78 | A replay starts exactly from a visible trace that verifies and whose program is stored and compiles. |
| `Replay.Replay` | src/replay.rs:38-155 | The replay with its loop and pushes computes the specified report, or the specified load error. |
| `Replay.RunOnTape` | src/replay.rs:87-92 | The VM loop over a strict tape halts in the specified state. |
| `Replay.CompareRun` | src/replay.rs:79-147 | The pushes build the specified report; `Replay.ReportExact` says what is in it. |
| `Tracing.KindIgnoresLines` | src/engine.rs:325-350 | For every nesting of line wrappers and every offset, the status is an error of the innermost variant. |
| `Tracing.WrappedStatus` | src/engine.rs:327-337 | A wrapper's line counts from the end of the prelude, and one inside the prelude is dropped. |
| `Tracing.BareMessage` | src/engine.rs:338-350 | Without a line wrapper the message is the error's own. |
| `Tracing.FooterExact` | src/engine.rs:148-166 | A footer has an output exactly when its status is ok; the output is the canonical returned value within the limit; a value over it is OutputExceeded. |
| `Tracing.FooterTells` | src/engine.rs:148-166 | A footer's output, status kind, gas and memory are those of the halted state. |
| `Tracing.FooterIgnoresLines` | src/replay.rs:89-99 | Line tables and offsets never change what replay compares. |
| `Tracing.SignedVerifies` | src/trace.rs:104-109 | A signed trace verifies, and signing it again changes nothing. |
| `Tracing.TamperDetected` | src/trace.rs:111-121 | Under a trace's signature nothing but that trace verifies, and with no key but its own. |
| `Replay.TamperedRefused` | src/replay.rs:47-53 | A stored trace that is not the one its signature was made for, or is checked with another key, is refused before anything runs. |
| `Store.KeyPaths` | src/store.rs:85-96 | Key paths are distinct for distinct keys, stay inside their directory and are never temp paths. |
| `Store.TempPaths` | src/store.rs:117-124 | Temp paths are distinct for distinct process ids and counters. |
| `Store.PutEffect` | src/store.rs:98-138 | Each step of a write touches only its temp file and its target, and the target only ever changes to the whole content. |
| `Store.TraceStore.WriteAtomic` | src/store.rs:117-138 | A run of those steps that either puts the whole content under the target, whatever is there by then, or leaves every file but its temp file alone; without a fault it fails exactly when a file is already under its temp name. |
| `Store.TraceStore.Put` | src/store.rs:98-113 | The look decides between stored, conflict and a write; a failed put changes no visible file; without a fault the outcome is exact, and an I/O error comes exactly from a file left under the temp name of a put whose target is absent. |
| `Guard.FindFirstExecute` | demo/agent/src/demo_agent/agent.py:295-300 | The reversed scan with its early return is decided by the newest reply that has the id. |
| `Guard.FirstExecuteExact` | demo/agent/src/demo_agent/agent.py:295-300 | For an `execute` of the newest reply, the scan says whether it has the id of that reply's first `execute`, and never fails. |
| `Guard.SentArgs` | demo/agent/src/demo_agent/agent.py:242-245 | The `request` and `session` arguments are the agent's own; every other argument is the model's. |
| `Guard.ClassifiedExactly` | demo/agent/src/demo_agent/agent.py:69-82 | Which results are successes, failed runs and lint errors, one equivalence each. |
| `Guard.LintTextExact` | demo/agent/src/demo_agent/agent.py:60 | The pattern matches exactly the texts made of `line `, a number, `: ` and a message. |
| `Guard.OtherAnswersStop` | demo/agent/src/demo_agent/agent.py:283-290 | An error that is neither a failed run nor a lint text stops the agent as unexpected, as does a success without a trace id. |
| `Guard.AlmostLint` | demo/agent/src/demo_agent/agent.py:60-82 | The error text `line 3 went wrong` stops the agent. |
| `Guard.RunOf` | demo/agent/src/demo_agent/agent.py:246-287 | A protocol error is an unexpected run with its message; a result's outcome is its classification, its trace id and, after a success, its result are the answer's own, and anything but a success has the answer's text as its error. |
| `Guard.RawResults.Keep` | demo/agent/src/demo_agent/agent.py:96-104 | The interceptor files a result under its tool's name. |
| `Guard.RawResults.Pop` | demo/agent/src/demo_agent/agent.py:257 | The entry is returned and removed. |
| `Guard.ExecuteGuard.constructor` | demo/agent/src/demo_agent/agent.py:180-200 | A new guard has zero counters, no runs and no stop. |
| `Guard.ExecuteGuard.StopFor` | demo/agent/src/demo_agent/agent.py:202-204 | The first reason to stop is kept. |
| `Guard.ExecuteGuard.AskModel` | demo/agent/src/demo_agent/agent.py:207-213 | The model is asked, and counted, only while nothing stopped the agent and the cap allows it. |
| `Guard.ExecuteGuard.BeginExecute` | demo/agent/src/demo_agent/agent.py:219-240 | The state and admission once the lock is held: sent, refused, or an index error. |
| `Guard.ExecuteGuard.EndWithError` | demo/agent/src/demo_agent/agent.py:246-256 | A protocol error is recorded as unexpected and stops the agent. |
| `Guard.ExecuteGuard.EndExecute` | demo/agent/src/demo_agent/agent.py:257-292 | The popped result is classified, recorded and counted, and the agent stops where the rules say so. |
| `GuardRuns.Reachable` | demo/agent/src/demo_agent/agent.py:202-292 | Every reachable state has true counters, only the last run failed, a stop that names its cause, the raw entry owned by the lock's holder, and, for a reply that does not repeat its first `execute`, the closed form below. |
| `GuardRuns.AdmitExact` | demo/agent/src/demo_agent/agent.py:219-240 | What a call finds when it gets the lock: refused once stopped or capped, and otherwise sent exactly when it has the first `execute`'s id; the index error is never reached. |
| `GuardRuns.NothingAfterFailure` | demo/agent/src/demo_agent/agent.py:283-292 | After a failed or unexpected run nothing is sent and nothing changes, for the rest of the run. |
| `GuardRuns.Latched` | demo/agent/src/demo_agent/agent.py:202-213 | Once stopped, the guard's state and the calls sent never change. |
| `GuardRuns.SentBounded` | demo/agent/src/demo_agent/agent.py:215-278 | The executes sent number at most max_runs (or 0, if that is larger) times max_lint_streak (or 1), for all replies, and at most max_model_calls (or 0) while no reply repeats its first `execute`. |
| `GuardLimits.MostSent` | demo/agent/src/demo_agent/agent.py:215-278 | The first bound is attained whenever the model may be called at all. |
| `GuardLimits.MostSentUnrepeated` | demo/agent/src/demo_agent/agent.py:207-213 | Replies that repeat nothing attain the smaller of the two bounds. |
| `GuardLimits.ExceedsModelCallsExactly` | demo/agent/src/demo_agent/agent.py:295-300 | Some execution sends more executes than max_model_calls if and only if that limit is at least 1 and the first bound is larger. |
| `GuardLimits.SendsTwiceExactly` | demo/agent/src/demo_agent/agent.py:295-300 | A reply can send two executes if and only if another `execute` of it repeats the first one's id and the limits leave room for two runs. |
| `GuardLimits.RepeatedSendsTwice` | demo/agent/src/demo_agent/agent.py:295-300 | For any such reply and limits, an execution that sends both. |
| `GuardRuns.ReportTrue` | demo/agent/src/demo_agent/agent.py:141-143 | A succeeded report holds only successes and lint errors; a failed run is there exactly when the stop says so; every sent call carries the agent's own request and session. |
| `GuardRuns.OwnResult` | demo/agent/src/demo_agent/agent.py:89-104 | The raw result popped is there and is the sent call's own, whatever other calls finished in between. |
| `GuardRuns.ServedReply` | demo/agent/src/demo_agent/agent.py:215-262 | A served reply that does not repeat its first `execute`, in closed form: which call was sent, and the guard's exact state, lock order included. |
| `GuardRuns.OrderIndependent` | demo/agent/src/demo_agent/agent.py:215-262 | Any two lock orders of such a reply send the same single call and end equal, except that stop may be None or RUN_CAP when that call is the cap-th success. |
| `GuardLimits.OrderShowsExactly` | demo/agent/src/demo_agent/agent.py:215-262 | From such a reply, just come, two lock orders with one answer can end with different stops if and only if the reply has a second `execute` and one more success reaches max_runs. |
| `Session.FailureIsLast` | demo/agent/src/demo_agent/agent.py:15-18 | Agent and gateway as one machine, with other clients, crashes and lost connections: a visible trace of the agent's session with an error status is of the last call the agent has sent. |
| `Session.AtMostOneFailure` | demo/agent/src/demo_agent/agent.py:15-18 | Among the visible traces of one session at most one has an error status. |
| `Session.SessionTraces` | demo/agent/src/demo_agent/agent.py:215-278 | Every visible trace of the session is of a call the agent sent, and there are no more of those than the limits on runs allow. |
| `Session.JointReachable` | demo/agent/src/demo_agent/agent.py:215-292 | In every reachable joint state both machines' invariants hold, every thread of the session runs a sent call, and every run the agent went on after has a trace whose status is ok. |
| `Tokens.ConstantTimeEq` | src/server.rs:158-161 | The XOR and OR fold is zero exactly when the digests are equal. |
| `Tokens.Resolve` | src/server.rs:125-143 | Succeeds exactly when every token resolves, none is empty and no two share a digest, with every principal's digest. |
| `Tokens.PrincipalFor` | src/server.rs:146-155 | The scan that does not stop returns n exactly when n is the principal whose digest is the presented token's. |
| `Tokens.Authenticate` | src/server.rs:124-155 | A request is n's exactly when the token configured for n has the digest of the one presented; without a collision, exactly when it is that token. |
| `Values.FillFromObject` | src/values.rs:27-36 | Fails exactly on a null inside an array at any depth; otherwise the table of the members that are not null. |
| `Values.FillFromArray` | src/values.rs:38-49 | Fails exactly on a null element at any depth; otherwise keys 1 to n. |
| `Values.ConvertValue` | src/values.rs:57-69 | The recursive conversion meets the specification of the Lua value. |
| `Values.ConvertResponse` | src/values.rs:20-25 | Succeeds exactly on objects with no null array element at any depth. |
| `Values.ThereAndBack` | src/values.rs:57-69 | The JSON form of a value's table is the value's normal form; `Host.ResponseRoundTrip` states it of `table_to_json`. |
| `Values.BackAndThere` | src/values.rs:57-69 | The table of a table's JSON form is that table; `Host.ArgumentRoundTrip` states it of `table_to_json`. |
| `Values.NormalForm` | src/values.rs:57-69 | The normal form is idempotent and has the same table. |
| `Values.ResponseTable` | src/values.rs:20-25 | A response's table can be described in JSON, its JSON form is the response's normal form, and that form has the same table. |
| `Values.TableReads` | src/values.rs:57-69 | What a program reads from a response: scalars as they are, each member that is not null under its name, items from 1. |
| `Values.NumbersKept` | src/values.rs:57-69 | A whole number outside i64 is text it can be read back from; any in range is itself. |
| `Provenance.CanonicalJson` | src/downstream.rs:281-284 | The bytes written from the ordered map are the canonical form of the collected members. |
| `Provenance.OrderIgnored` | src/downstream.rs:277-284 | Members collect to one report whatever order they are listed in, so the bytes ignore that order. |
| `Provenance.CanonicalInjective` | src/downstream.rs:281-284 | Two reports have equal bytes exactly when they are equal. |
| `Provenance.CanonicalReads` | src/downstream.rs:277-284 | The bytes are JSON that a reader takes back to the report: every member, once each, in name order. |
| `Provenance.ReportExact` | src/downstream.rs:235-275 | A report is accepted as a tag exactly when it is that tag's object, no field missing, extra, empty or mistyped, with that tag's bytes. |
| `Provenance.ProvenanceExact` | src/downstream.rs:235-275 | What is read from a result's metadata is the tag reported, with its own bytes: with the reserved key exactly one whole tag, without it Unsigned. A malformed report is an error, never Unsigned. |
| `Provenance.FormsRead` | src/trace.rs:15-32 | The members each of the four tags is reported with. |
| `Provenance.ReadResult` | src/downstream.rs:235-275 | The blob is empty exactly for Unsigned and otherwise is the tag's canonical JSON. |
| `Provenance.BlobsIdentifyTags` | src/trace.rs:15-32 | Two accepted tags have equal bytes exactly when they are equal. |
| `Policy.Check` | src/policy.rs:98-128 | The loop with its early returns gives the specified verdict, with its reason. |
| `Policy.VerdictExact` | src/policy.rs:98-128 | A call is allowed exactly when principal and tool are listed and every constrained argument is a present integer within its bound. |
| `Policy.DenialExplained` | src/policy.rs:98-128 | A denial names its cause: the principal, the tool, or the first argument in name order that does not meet its bound, and whether it is missing, no integer or too large. |
| `Policy.TighteningOnlyDenies` | src/policy.rs:94-128 | Removing tools, lowering bounds or adding constraints never turns a denial into a permission. |
| `Policy.ListedDeniedByConstraint` | src/policy.rs:108-127 | A listed tool is denied exactly when some constraint is not met. |
| `Policy.Parse` | src/policy.rs:56-87 | Succeeds exactly when every bound is named `<arg>_max`, and keeps every list and bound. |
| `Policy.ParseBounds` | src/policy.rs:67-79 | The inner loop, for one tool's bounds. |
| `Policy.StripMaxInverts` | src/policy.rs:70-72 | The argument name is what the suffix was added to, and is not empty. |
| `Downstream.AcceptNames` | src/config.rs:210-224 | Accepts exactly the name lists with no dot and no repetition. |
| `Downstream.Connect` | src/downstream.rs:72-87 | Fails exactly on a dotted tool name; otherwise the catalogue holds exactly the discovered tools, sorted, with every server a client. |
| `Downstream.SplitOnceInverts` | src/downstream.rs:99-101 | Splitting at the first dot recovers the server and tool a name was made of. |
| `Downstream.QualifiedNameSplits` | src/downstream.rs:40-43 | A catalogued tool's qualified name names its one server and tool. |
| `Downstream.CataloguedToolRoutes` | src/downstream.rs:99-116 | A catalogued tool is never unknown; a request is sent exactly when the arguments are an object or null. |
| `Downstream.MapResult` | src/downstream.rs:202-225 | A result that is not an error always gives an object. |
| `Downstream.ReplyExact` | src/downstream.rs:202-225 | A reply is taken exactly when it came back, as no error, with no report or a well-formed one; it is then its structured content if that is an object, `{"value": ..}` around any other, the object of a single JSON text block, and `{"text": ..}` otherwise. An error result gives the text of its blocks. |
| `Description.Build` | src/description.rs:75-97 | Sorting and pushing entries build the specified text, hash and prelude. |
| `Description.ToolsListed` | src/description.rs:75-97 | The text is the rules, the heading, one entry per allowed tool in the order of their names, and the examples; what stands around the entries depends on no tool, but for the notice when there is none. |
| `Description.EveryToolShown` | src/description.rs:85-87 | The entry of every allowed tool occurs in the text. |
| `Rendering.TwoLinesExactly` | src/description.rs:117-179 | A tool's entry is the two lines it is meant to be if and only if its names, its properties' included, have no line break. |
| `Rendering.ThreeLines` | src/description.rs:117-179 | A schema whose entry is not two lines. |
| `Rendering.SortedProperties` | src/description.rs:205-224 | Collecting and sorting give every property once, with its required flag, in name order, however the schema lists them. |
| `Rendering.FirstOneWay` | src/description.rs:194-203 | The note is for the first pair whose destination the schema takes and whose source it does not. |
| `Rendering.TrimDots` | src/description.rs:125 | Exactly the dots at the end are dropped. |
| `Rendering.WordsSplit` | src/description.rs:120-123 | White space separates words wherever it stands and is part of none. |
| `Rendering.WordsWhole` | src/description.rs:120-123 | A text without white space is one word; with `WordsSplit` this determines the words of every text. |
| `Rendering.WordsKeepText` | src/description.rs:120-123 | The words, in order, are the text without its white space. |
| `Reading.EntryReads` | src/description.rs:117-179 | An entry whose names have no character that ends a name can be read back: the description's own words but for dots at its end, the returned fields, the note, the tool's name, and every argument in name order with its type, optional exactly when the schema does not require it. |
| `Reading.TypesDifferExactly` | src/description.rs:226-250 | One schema has one type as an argument and as a returned field, except `number`. |
| `Description.BuildPrelude` | src/description.rs:99-115 | Sorting, deduplicating and pushing lines build the specified prelude. |
| `Description.SortedServers` | src/description.rs:100-102 | The servers, each once, in order. |
| `Description.OrderIndependent` | src/description.rs:75-97 | Every permutation of a tool list with distinct qualified names gives one description. |
| `Description.PreludeShape` | src/description.rs:99-115 | Each server is declared once, before any tool, and the wrappers are exactly the given tools. |
| `Description.PreludeText` | src/description.rs:99-115 | The prelude's text: one declaration per server in order, then one wrapper per tool, which calls that very tool. |
| `Description.PreludeEndsInNewline` | src/engine.rs:118-120 | The prelude is empty or ends in a newline. |
| `Description.PreludeLineCount` | src/engine.rs:144 | With accepted names the prelude has one source line per server and per tool. |
| `Description.HiddenLibraries` | src/engine.rs:248-310 | An accepted name hides a library exactly when it is `decimal`. |
| `Dialect.BuildSource` | src/dialect.rs:149-156 | The buffer compiled, and an offset that turns each line of it into the program's own. |
| `Dialect.LineMapping` | src/dialect.rs:155-169 | A position is past the offset exactly when it lies in the program, and the offset separates the two numberings. |
| `Dialect.StoredSource` | src/engine.rs:118-121 | Prelude and program concatenated are the compiled source, and the prelude's line count is the offset. |
| `Dialect.LintAtOwnLine` | src/dialect.rs:158-176 | An error in the program is a lint error at its own line; one in the prelude is never blamed on the program. |

## Left out

- proveno-core: the compiler, the VM, the canonical serializer and the tape host are functions with the laws of `Core.Lawful`; no Lua is interpreted.
- The laws themselves: `Metered` bounds every run, so an endless run is not modelled; a panic inside the VM is not either.
- MCP transport, HTTP routing, process spawning, credential injection and the command line: requests and replies are values, and a downstream is an arbitrary function of the requests it has been sent.
- src/schema.rs: the schema check is an arbitrary function of tool and arguments.
- SHA-256, Ed25519 and hex: functions with the laws of `Tracing.Sound`. The tamper results assume in addition `Tracing.Unforgeable`, an ideal, and a malformed signature is not told apart from a wrong one.
- TOML and serde parsing, path resolution and durability under power loss: a crash is the process stopping between steps.
- Temp names: in the concurrent machine a put names any temp file that no other live writer holds, so the invariants hold for every way of naming; that process ids of live processes differ is assumed. Results on finishing fix the process id and the counter.
- Trace ids: UUIDs (section 5.7 of RFC 9562) are taken as distinct and in the store's key alphabet.
- The fixed prompt text (dialect rules, examples): parameters of the description.
- parse_message, compile_message, program_line and is_pcall_tool_call: core's message stands for the reworded one.
- Error texts: kept where a decision or the guard reads them; the value or index quoted when a response has no table form is not modelled, nor are the two values a replay mismatch quotes.
- Record fields core adds (sequence number, byte counts, gas charged) and the header's VM version: constant or not compared.
- policy_hash: a field of the request's settings.
- Gateway: `execute` in the concurrent machine is a step machine on values; the object form of one request is `Engine.Execute`. In-place signing of the trace is a value update.
- Report.verdicts, final_reply, to_json and Flow: presentation.
- Guard: exceptions other than a protocol error, a tool result that is not an MCP result, and digits outside ASCII in a lint text are not modelled; the graph asks the model only when every tool call of the last reply is done.
- require_bearer: only the token lookup is modelled, not the header syntax.
- Answers.AnswerClassified: says nothing of a panic on a broken prelude, which has no answer.
- conformance.py, cli.py, run.sh, the demo wallet, market and client: network clients and presentation.
