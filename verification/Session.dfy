/** An agent and the gateway it talks to, as one machine: what the traces of one
    agent session can say. */
module Session {
  import opened Text
  import opened Chains
  import opened Values
  import opened Tracing
  import opened Store
  import opened Gateway
  import opened Answers
  import Guard
  import Agent = GuardRuns

  /** `show` prints JSON in the gateway's answers. */
  datatype Setup = Setup(sys: Sys, task: Guard.Task, show: Json -> string)

  /** What became of a call the agent sent: its arguments were refused, its program
      did not lint, or a thread of the gateway runs it. */
  datatype Request = Rejected | Linted(job: Job) | Started(id: string)

  /** `requests[k]` is what the `k`-th call sent became. */
  datatype Joint = Joint(gateway: State, agent: Agent.World, requests: seq<Request>)

  // ---------------------------------------------------------------------
  // The machine
  // ---------------------------------------------------------------------

  ghost predicate OfSession(setup: Setup, job: Job)
  {
    job.session == Some(setup.task.session)
  }

  /** The request a sent call makes of the gateway. */
  ghost predicate Makes(setup: Setup, sent: Agent.Sent, job: Job)
  {
    && OfSession(setup, job) && job.request == Some(setup.task.task)
    && "program" in sent.args && sent.args["program"] == Str(job.program)
  }

  /** Any thread moves, another client's request arrives, or the process stops. The
      session's name is the agent's alone. */
  ghost predicate GatewayMoves(setup: Setup, j: Joint, j': Joint)
  {
    && Next(setup.sys, j.gateway, j'.gateway) && j'.agent == j.agent && j'.requests == j.requests
    && forall id | id in j'.gateway.threads && id !in j.gateway.threads ::
         !OfSession(setup, j'.gateway.threads[id].job)
  }

  /** A step of the agent that involves no gateway. */
  ghost predicate AgentMoves(setup: Setup, j: Joint, j': Joint)
  {
    && Agent.Next(setup.task, j.agent, j'.agent) && j'.gateway == j.gateway && j'.requests == j.requests
    && j'.agent.sent == j.agent.sent && (j.agent.lock.Sending? ==> j'.agent.lock == j.agent.lock)
  }

  ghost predicate Sends(setup: Setup, j: Joint, j': Joint, request: Request, job: Job)
  {
    && Agent.Next(setup.task, j.agent, j'.agent) && |j'.agent.sent| == |j.agent.sent| + 1
    && j'.requests == j.requests + [request]
    && match request
       case Rejected => j'.gateway == j.gateway
       case Linted(program) =>
         j'.gateway == j.gateway && Makes(setup, j'.agent.sent[|j.agent.sent|], program)
         && Compile(setup.sys, program).Lint?
       case Started(id) =>
         Makes(setup, j'.agent.sent[|j.agent.sent|], job) && Spawn(setup.sys, j.gateway, j'.gateway, id, job)
  }

  /** The result the gateway has for a request, once it has one. */
  ghost predicate HasResult(setup: Setup, st: State, request: Request, r: ExecuteResult)
  {
    match request
    case Rejected => false
    case Linted(job) =>
      var outcome := Compile(setup.sys, job);
      outcome.Lint? && r == LintError(outcome.line, outcome.message)
    case Started(id) =>
      && id in st.threads && st.threads[id].phase.Done?
      && var job, run := st.threads[id].job, st.threads[id].phase.run;
         && Compile(setup.sys, job).Program? && Finished(setup.sys.core, run)
         && var footer := TraceOf(setup.sys, job, id, run).footer;
            r == Ran(id, footer.output, footer.status)
  }

  /** The sent call's result arrives. */
  ghost predicate Replies(setup: Setup, j: Joint, j': Joint, r: ExecuteResult, result: Guard.CallToolResult)
  {
    && j'.gateway == j.gateway && j'.requests == j.requests && j.requests != []
    && HasResult(setup, j.gateway, j.requests[|j.requests| - 1], r)
    && AnswerOf(setup.sys.core.parse, setup.show, r) == Guard.Replied(result)
    && Agent.Deliver(j.agent, j'.agent, result)
  }

  /** A protocol error arrives, which may be at any time: the gateway's own, or the
      connection's, with the thread still at work. */
  ghost predicate Breaks(setup: Setup, j: Joint, j': Joint, message: string)
  {
    && j'.gateway == j.gateway && j'.requests == j.requests
    && Agent.Fail(setup.task, j.agent, j'.agent, message)
  }

  ghost predicate JointNext(setup: Setup, j: Joint, j': Joint)
  {
    || GatewayMoves(setup, j, j')
    || AgentMoves(setup, j, j')
    || (exists request, job :: Sends(setup, j, j', request, job))
    || (exists r, result :: Replies(setup, j, j', r, result))
    || (exists message :: Breaks(setup, j, j', message))
  }

  ghost function JointSteps(setup: Setup): (Joint, Joint) -> bool
  {
    (j, j') => JointNext(setup, j, j')
  }

  ghost predicate JointExecution(setup: Setup, joints: seq<Joint>)
  {
    && joints != [] && Init(joints[0].gateway) && Agent.Init(joints[0].agent) && joints[0].requests == []
    && Linked(JointSteps(setup), joints)
  }

  // ---------------------------------------------------------------------
  // The invariant
  // ---------------------------------------------------------------------

  /** The thread has ended with a trace whose status is ok. */
  ghost predicate EndedWell(sys: Sys, st: State, id: string)
  {
    && id in st.threads && st.threads[id].phase.Done?
    && var job, run := st.threads[id].job, st.threads[id].phase.run;
       && Compile(sys, job).Program? && Finished(sys.core, run)
       && TraceOf(sys, job, id, run).footer.status.RunOk?
  }

  /** Every thread of the session runs a call the agent sent. */
  ghost predicate Known(setup: Setup, st: State, requests: seq<Request>)
  {
    forall id | id in st.threads && OfSession(setup, st.threads[id].job) :: Started(id) in requests
  }

  /** A run the agent went on after had ended well. */
  ghost predicate Settled(sys: Sys, st: State, requests: seq<Request>, runs: seq<Guard.Run>)
  {
    forall k | 0 <= k < |runs| && k < |requests| && requests[k].Started? && !Agent.Effects(runs[k].outcome) ::
      EndedWell(sys, st, requests[k].id)
  }

  /** So has one whose result has arrived and will be gone on after. */
  ghost predicate Pending(sys: Sys, st: State, requests: seq<Request>, lock: Agent.Lock)
  {
    && lock.Delivered? && requests != [] && requests[|requests| - 1].Started?
    && !Agent.Effects(Guard.Classify(lock.result))
    ==> EndedWell(sys, st, requests[|requests| - 1].id)
  }

  ghost predicate JointOk(setup: Setup, j: Joint)
  {
    && Inv(setup.sys, j.gateway) && Agent.WorldOk(setup.task, j.agent) && |j.requests| == |j.agent.sent|
    && Known(setup, j.gateway, j.requests)
    && Settled(setup.sys, j.gateway, j.requests, j.agent.guard.runs)
    && Pending(setup.sys, j.gateway, j.requests, j.agent.lock)
  }

  lemma DoneStays(sys: Sys, st: State, st': State, id: string)
    requires Next(sys, st, st') && id in st.threads && st.threads[id].phase.Done?
    ensures id in st'.threads && st'.threads[id] == st.threads[id]
  {
  }

  lemma JobStays(sys: Sys, st: State, st': State, id: string)
    requires Next(sys, st, st') && id in st.threads
    ensures id in st'.threads && st'.threads[id].job == st.threads[id].job
  {
  }

  lemma EndedWellStays(sys: Sys, st: State, st': State, id: string)
    requires Next(sys, st, st') && EndedWell(sys, st, id)
    ensures EndedWell(sys, st', id)
  {
    DoneStays(sys, st, st', id);
  }

  lemma GatewayKeeps(setup: Setup, j: Joint, j': Joint)
    requires ValidSys(setup.sys) && JointOk(setup, j) && GatewayMoves(setup, j, j')
    ensures JointOk(setup, j')
  {
    var sys, st, st' := setup.sys, j.gateway, j'.gateway;
    NextKeepsInv(sys, st, st');
    forall id | id in st'.threads && OfSession(setup, st'.threads[id].job) ensures Started(id) in j'.requests {
      assert id in st.threads;
      JobStays(sys, st, st', id);
    }
    forall id | EndedWell(sys, st, id) ensures EndedWell(sys, st', id) {
      EndedWellStays(sys, st, st', id);
    }
  }

  /** A step of the agent alone records the result that arrived, or nothing. */
  lemma OwnMove(task: Guard.Task, w: Agent.World, w': Agent.World)
    requires Agent.Next(task, w, w') && w'.sent == w.sent && (w.lock.Sending? ==> w'.lock == w.lock)
    ensures (w'.guard.runs == w.guard.runs && w'.lock == w.lock) || Agent.Finish(task, w, w')
  {
  }

  lemma SendMove(task: Guard.Task, w: Agent.World, w': Agent.World)
    requires Agent.Next(task, w, w') && |w'.sent| == |w.sent| + 1
    ensures w.lock.Free? && w'.lock.Sending? && w'.guard.runs == w.guard.runs
  {
  }

  lemma AgentKeeps(setup: Setup, j: Joint, j': Joint)
    requires JointOk(setup, j) && AgentMoves(setup, j, j')
    ensures JointOk(setup, j')
  {
    var w, w' := j.agent, j'.agent;
    Agent.NextKeeps(setup.task, w, w');
    OwnMove(setup.task, w, w');
    if Agent.Finish(setup.task, w, w') {
      FinishKeeps(setup, j, j');
    }
  }

  lemma FinishKeeps(setup: Setup, j: Joint, j': Joint)
    requires JointOk(setup, j) && Agent.Finish(setup.task, j.agent, j'.agent)
    requires j'.gateway == j.gateway && j'.requests == j.requests
    ensures Settled(setup.sys, j'.gateway, j'.requests, j'.agent.guard.runs)
    ensures Pending(setup.sys, j'.gateway, j'.requests, j'.agent.lock)
  {
    var runs, run := j.agent.guard.runs, Guard.RunOf(|j.agent.guard.runs| + 1, Guard.Replied(j.agent.lock.result));
    FinishSettled(setup.sys, j.gateway, j.requests, runs, run);
    assert j'.agent.guard.runs == runs + [run];
  }

  lemma FinishSettled(sys: Sys, st: State, requests: seq<Request>, runs: seq<Guard.Run>, run: Guard.Run)
    requires Settled(sys, st, requests, runs) && |requests| == |runs| + 1
    requires requests[|runs|].Started? && !Agent.Effects(run.outcome) ==> EndedWell(sys, st, requests[|runs|].id)
    ensures Settled(sys, st, requests, runs + [run])
  {
    var runs' := runs + [run];
    forall k | 0 <= k < |runs'| && requests[k].Started? && !Agent.Effects(runs'[k].outcome)
      ensures EndedWell(sys, st, requests[k].id)
    {
      assert k < |runs| ==> runs'[k] == runs[k];
    }
  }

  lemma SendKeeps(setup: Setup, j: Joint, j': Joint, request: Request, job: Job)
    requires ValidSys(setup.sys) && JointOk(setup, j) && Sends(setup, j, j', request, job)
    ensures JointOk(setup, j')
  {
    Agent.NextKeeps(setup.task, j.agent, j'.agent);
    SendMove(setup.task, j.agent, j'.agent);
    if request.Started? {
      NextKeepsInv(setup.sys, j.gateway, j'.gateway);
    }
    SendSettled(setup.sys, j.gateway, j'.gateway, j.requests, request, j.agent.guard.runs);
    SendKnown(setup, j.gateway, j'.gateway, j.requests, request, job);
  }

  lemma SendSettled(
    sys: Sys, st: State, st': State, requests: seq<Request>, request: Request, runs: seq<Guard.Run>)
    requires Settled(sys, st, requests, runs) && |runs| <= |requests| && (st' == st || Next(sys, st, st'))
    ensures Settled(sys, st', requests + [request], runs)
  {
    var more := requests + [request];
    forall k | 0 <= k < |runs| && more[k].Started? && !Agent.Effects(runs[k].outcome)
      ensures EndedWell(sys, st', more[k].id)
    {
      assert more[k] == requests[k];
      if st' != st {
        EndedWellStays(sys, st, st', requests[k].id);
      }
    }
  }

  lemma SendKnown(setup: Setup, st: State, st': State, requests: seq<Request>, request: Request, job: Job)
    requires Known(setup, st, requests)
    requires st' == st || (request.Started? && Spawn(setup.sys, st, st', request.id, job))
    ensures Known(setup, st', requests + [request])
  {
    forall id | id in st'.threads && OfSession(setup, st'.threads[id].job) ensures Started(id) in requests + [request] {
      assert id in st.threads ==> Started(id) in requests;
    }
  }

  lemma ReplyKeeps(setup: Setup, j: Joint, j': Joint, r: ExecuteResult, result: Guard.CallToolResult)
    requires JointOk(setup, j) && Replies(setup, j, j', r, result)
    ensures JointOk(setup, j')
  {
    Agent.DeliverKeeps(setup.task, j.agent, j'.agent, result);
    var request := j.requests[|j.requests| - 1];
    if request.Started? && !Agent.Effects(Guard.Classify(result)) {
      GoodReply(setup, j.gateway, request.id, r, result);
    }
  }

  /** The agent goes on after a run only if the run's trace says ok. */
  lemma GoodReply(setup: Setup, st: State, id: string, r: ExecuteResult, result: Guard.CallToolResult)
    requires HasResult(setup, st, Started(id), r) && AnswerOf(setup.sys.core.parse, setup.show, r) == Guard.Replied(result)
    requires !Agent.Effects(Guard.Classify(result))
    ensures EndedWell(setup.sys, st, id)
  {
    AnswerClassified(setup.sys.core.parse, setup.show, r, 0);
    assert Guard.RunOf(0, Guard.Replied(result)).outcome == Guard.Classify(result);
  }

  lemma BreakKeeps(setup: Setup, j: Joint, j': Joint, message: string)
    requires JointOk(setup, j) && Breaks(setup, j, j', message)
    ensures JointOk(setup, j')
  {
    assert Agent.Next(setup.task, j.agent, j'.agent);
    Agent.NextKeeps(setup.task, j.agent, j'.agent);
    BreakSettled(setup.sys, j.gateway, j.requests, j.agent.guard.runs, Guard.RunOf(|j.agent.guard.runs| + 1, Guard.McpError(message)));
  }

  lemma BreakSettled(sys: Sys, st: State, requests: seq<Request>, runs: seq<Guard.Run>, run: Guard.Run)
    requires Settled(sys, st, requests, runs) && Agent.Effects(run.outcome)
    ensures Settled(sys, st, requests, runs + [run])
  {
    var runs' := runs + [run];
    forall k | 0 <= k < |runs'| && k < |requests| && requests[k].Started? && !Agent.Effects(runs'[k].outcome)
      ensures EndedWell(sys, st, requests[k].id)
    {
      assert runs'[k] == runs[k];
    }
  }

  lemma JointKeeps(setup: Setup, j: Joint, j': Joint)
    requires ValidSys(setup.sys) && JointOk(setup, j) && JointNext(setup, j, j')
    ensures JointOk(setup, j')
  {
    if GatewayMoves(setup, j, j') {
      GatewayKeeps(setup, j, j');
    } else if AgentMoves(setup, j, j') {
      AgentKeeps(setup, j, j');
    } else if request, job :| Sends(setup, j, j', request, job) {
      SendKeeps(setup, j, j', request, job);
    } else if r, result :| Replies(setup, j, j', r, result) {
      ReplyKeeps(setup, j, j', r, result);
    } else {
      var message :| Breaks(setup, j, j', message);
      BreakKeeps(setup, j, j', message);
    }
  }

  lemma {:induction false} JointReachable(setup: Setup, joints: seq<Joint>, i: nat)
    requires ValidSys(setup.sys) && JointExecution(setup, joints) && i < |joints|
    ensures JointOk(setup, joints[i])
  {
    if i == 0 {
    } else {
      JointReachable(setup, joints, i - 1);
      LinkedAt(JointSteps(setup), joints, i - 1);
      JointKeeps(setup, joints[i - 1], joints[i]);
    }
  }

  // ---------------------------------------------------------------------
  // Main results
  // ---------------------------------------------------------------------

  /** A visible trace of the agent's session. */
  ghost predicate InSession(setup: Setup, st: State, id: string)
  {
    && ValidKey(id) && TracePath(id) in st.files
    && var trace := setup.sys.crypto.fromJson(st.files[TracePath(id)]);
       trace.Some? && trace.value.header.session == Some(setup.task.session)
  }

  /** Its status is an error. */
  ghost predicate Failed(setup: Setup, st: State, id: string)
  {
    && InSession(setup, st, id)
    && setup.sys.crypto.fromJson(st.files[TracePath(id)]).value.footer.status.RunError?
  }

  /** A visible trace is its finished thread's. */
  lemma TraceThread(sys: Sys, st: State, id: string)
    requires ValidSys(sys) && Inv(sys, st) && ValidKey(id) && TracePath(id) in st.files
    ensures id in st.threads && st.threads[id].phase.Done?
    ensures var job, run := st.threads[id].job, st.threads[id].phase.run;
            && Compile(sys, job).Program? && Finished(sys.core, run)
            && sys.crypto.fromJson(st.files[TracePath(id)]) == Some(TraceOf(sys, job, id, run))
            && TraceOf(sys, job, id, run).header.session == job.session
  {
    assert FileOk(sys, st, Traces, id);
    assert ThreadOk(sys, st.files, id, st.threads[id]);
    var job, run := st.threads[id].job, st.threads[id].phase.run;
    assert sys.crypto.fromJson(sys.crypto.toJson(TraceOf(sys, job, id, run))) == Some(TraceOf(sys, job, id, run));
  }

  /** Every visible trace of the session is of a call the agent sent, so there are
      no more of them than the limits on runs allow calls. */
  lemma SessionTraces(setup: Setup, joints: seq<Joint>, i: nat, id: string)
    requires ValidSys(setup.sys) && JointExecution(setup, joints) && i < |joints|
    requires InSession(setup, joints[i].gateway, id)
    ensures Started(id) in joints[i].requests
    ensures |joints[i].requests|
         <= Agent.AtLeast(0, setup.task.maxRuns) * Agent.AtLeast(1, setup.task.maxLintStreak)
  {
    JointReachable(setup, joints, i);
    TraceThread(setup.sys, joints[i].gateway, id);
    SentWithin(setup.task, joints[i].agent);
  }

  lemma SentWithin(task: Guard.Task, w: Agent.World)
    requires Agent.WorldOk(task, w)
    ensures |w.sent| <= Agent.AtLeast(0, task.maxRuns) * Agent.AtLeast(1, task.maxLintStreak)
  {
    var g := w.guard;
    if !w.lock.Free? {
      Agent.Room(
        g.successes, Agent.AtLeast(0, task.maxRuns), Agent.AtLeast(1, task.maxLintStreak), |g.runs|, g.lintStreak);
    }
  }

  /** A call other than the last one sent is one the agent went on after. */
  lemma WentOn(task: Guard.Task, w: Agent.World, k: nat)
    requires Agent.WorldOk(task, w) && k + 1 < |w.sent|
    ensures k < |w.guard.runs| && !Agent.Effects(w.guard.runs[k].outcome)
  {
    var runs := w.guard.runs;
    assert k == |runs| - 1 ==> !w.lock.Free?;
  }

  /** A failed run of the session is the last call the agent has sent, whatever
      other clients do, whenever the gateway stops, and whatever becomes of the
      connection. */
  lemma FailureIsLast(setup: Setup, joints: seq<Joint>, i: nat, id: string)
    requires ValidSys(setup.sys) && JointExecution(setup, joints) && i < |joints|
    requires Failed(setup, joints[i].gateway, id)
    ensures joints[i].requests != [] && joints[i].requests[|joints[i].requests| - 1] == Started(id)
  {
    JointReachable(setup, joints, i);
    FailedThread(setup, joints[i], id);
    var requests := joints[i].requests;
    var k :| 0 <= k < |requests| && requests[k] == Started(id);
    if k + 1 < |requests| {
      EarlierEndedWell(setup, joints[i], k);
    }
  }

  lemma FailedThread(setup: Setup, j: Joint, id: string)
    requires ValidSys(setup.sys) && JointOk(setup, j) && Failed(setup, j.gateway, id)
    ensures Started(id) in j.requests && !EndedWell(setup.sys, j.gateway, id)
  {
    TraceThread(setup.sys, j.gateway, id);
  }

  lemma EarlierEndedWell(setup: Setup, j: Joint, k: nat)
    requires JointOk(setup, j) && k + 1 < |j.requests| && j.requests[k].Started?
    ensures EndedWell(setup.sys, j.gateway, j.requests[k].id)
  {
    WentOn(setup.task, j.agent, k);
  }

  /** So among the visible traces of one session at most one says that it failed. */
  lemma AtMostOneFailure(setup: Setup, joints: seq<Joint>, i: nat, a: string, b: string)
    requires ValidSys(setup.sys) && JointExecution(setup, joints) && i < |joints|
    requires Failed(setup, joints[i].gateway, a) && Failed(setup, joints[i].gateway, b)
    ensures a == b
  {
    FailureIsLast(setup, joints, i, a);
    FailureIsLast(setup, joints, i, b);
  }
}
