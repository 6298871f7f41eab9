/** Concurrent `execute` calls over one store, interleaved at every file
    operation, VM step and tool call, with the process free to stop anywhere. */
module Gateway {
  import opened Text
  import opened Chains
  import opened Values
  import opened Core
  import opened Tracing
  import opened Downstream
  import opened Description
  import opened Dialect
  import opened Host
  import opened Run
  import opened Store
  import Provenance
  import Replay

  /** What all runs over a store share. The gateway's `describe` is `Describe`
      with its wording and hash. */
  datatype Sys = Sys(
    core: Core, crypto: Crypto, key: Key, describe: seq<ToolSchema> -> ToolDescription)

  ghost predicate ValidSys(sys: Sys)
  {
    Lawful(sys.core) && Sound(sys.crypto) && Builds(sys)
  }

  /** All that is used of `describe`: the hash is the text's, and the prelude is
      closed with a newline. */
  ghost predicate Builds(sys: Sys)
  {
    forall tools ::
      var d := sys.describe(tools);
      d.hash == sys.crypto.textHash(d.text) && EmptyOrEndsInNewline(d.prelude)
  }

  /** The gateway's own description qualifies, whatever its wording. */
  lemma DescribeBuilds(sys: Sys, wording: Wording)
    requires forall tools :: sys.describe(tools) == Describe(wording, sys.crypto.textHash, tools)
    ensures Builds(sys)
  {
    forall tools ensures EmptyOrEndsInNewline(sys.describe(tools).prelude) {
      PreludeEndsInNewline(SortBy(tools, QualifiedName));
    }
  }

  /** One request, with the rules, tools and limits it runs under. These may
      change from one run to the next. */
  datatype Job = Job(
    env: Env, vm: VmSettings, policyHash: string, program: string, session: Option<string>, request: Option<string>)

  function DescriptionOf(sys: Sys, job: Job): ToolDescription
  {
    sys.describe(job.env.allowed)
  }

  function SourceOf(sys: Sys, job: Job): string
  {
    DescriptionOf(sys, job).prelude + job.program
  }

  function Compile(sys: Sys, job: Job): Outcome<Compiled>
  {
    CompileProgram(sys.core.compile, DescriptionOf(sys, job).prelude, job.program)
  }

  /** The program linted; nothing is stored or run for one that did not. */
  ghost predicate JobOk(sys: Sys, job: Job)
  {
    ValidEnv(job.env) && job.env.core == sys.core && Compile(sys, job).Program?
  }

  function HashOf(sys: Sys, job: Job): string
    requires Compile(sys, job).Program?
  {
    sys.core.programHash(Compile(sys, job).c.code)
  }

  function ProgramPath(sys: Sys, job: Job): Path
    requires Compile(sys, job).Program?
  {
    KeyPath(Programs, HashOf(sys, job))
  }

  function DescriptionPath(sys: Sys, job: Job): Path
  {
    KeyPath(Descriptions, DescriptionOf(sys, job).hash)
  }

  function TracePath(id: string): Path
  {
    KeyPath(Traces, id)
  }

  function BeginVm(sys: Sys, job: Job): VmState
    requires Compile(sys, job).Program?
  {
    sys.core.start(Compile(sys, job).c.code, job.vm)
  }

  predicate Finished(core: Core, run: RunState)
  {
    |run.transcript| == |run.host.log| && Halted(core, run.vm)
  }

  function TraceOf(sys: Sys, job: Job, id: string, run: RunState): Trace
    requires Compile(sys, job).Program? && Finished(sys.core, run)
  {
    var prelude := DescriptionOf(sys, job).prelude;
    var header := Header(
      id, job.session, job.env.principal, HashOf(sys, job), job.policyHash,
      DescriptionOf(sys, job).hash, job.vm, job.request);
    var footer := FooterOf(
      sys.core, Compile(sys, job).c.lines, Newlines(prelude), job.vm.maxOutputBytes, run.vm);
    Sign(sys.crypto, sys.key, Trace(header, Zip(run.transcript, run.host.log), footer))
  }

  function TraceText(sys: Sys, job: Job, id: string, run: RunState): string
    requires Compile(sys, job).Program? && Finished(sys.core, run)
  {
    sys.crypto.toJson(TraceOf(sys, job, id, run))
  }

  // ---------------------------------------------------------------------
  // The machine
  // ---------------------------------------------------------------------

  datatype Phase =
    | PutProgram(put: Put)
    | PutDescription(put: Put)
    | Running(run: RunState)
    | PutTrace(run: RunState, put: Put)
    | Done(run: RunState)
    | Aborted
    | Crashed

  datatype Thread = Thread(job: Job, phase: Phase)

  /** Threads are named by their trace id and are kept after they end. */
  datatype State = State(files: Files, threads: map<string, Thread>)

  function PhaseHolds(phase: Phase): set<Path>
  {
    match phase
    case PutProgram(put) => Holds(put)
    case PutDescription(put) => Holds(put)
    case PutTrace(_, put) => Holds(put)
    case _ => {}
  }

  ghost function Taken(st: State, id: string): set<Path>
  {
    set i, p | i in st.threads && i != id && p in PhaseHolds(st.threads[i].phase) :: p
  }

  /** The phase after a put ends. A program conflict is not an error: the source
      already stored compiles to the same hash. */
  function AfterProgram(end: PutEnd): Phase
  {
    if end.IoError? then Aborted else PutDescription(Look)
  }

  function AfterDescription(sys: Sys, job: Job, end: PutEnd): Phase
    requires Compile(sys, job).Program?
  {
    if end.Stored? then Running(Begin(BeginVm(sys, job))) else Aborted
  }

  function AfterTrace(run: RunState, end: PutEnd): Phase
  {
    if end.Stored? then Done(run) else Aborted
  }

  ghost predicate ThreadNext(
    sys: Sys, id: string, files: Files, t: Thread, taken: set<Path>, files': Files, phase': Phase)
    requires Compile(sys, t.job).Program?
  {
    match t.phase
    case PutProgram(put) =>
      exists next :: PutNext(files, put, ProgramPath(sys, t.job), SourceOf(sys, t.job), Addressed, taken, files', next)
                     && phase' == if next.Busy? then PutProgram(next.put) else AfterProgram(next.end)
    case PutDescription(put) =>
      exists next :: PutNext(files, put, DescriptionPath(sys, t.job), DescriptionOf(sys, t.job).text, Addressed, taken, files', next)
                     && phase' == if next.Busy? then PutDescription(next.put) else AfterDescription(sys, t.job, next.end)
    case Running(run) =>
      && files' == files
      && if Halted(sys.core, run.vm) then phase' == PutTrace(run, Look)
         else exists oracle: Oracle :: phase' == Running(Advance(t.job.env, run, oracle))
    case PutTrace(run, put) =>
      && Finished(sys.core, run)
      && exists next :: PutNext(files, put, TracePath(id), TraceText(sys, t.job, id, run), Unique, taken, files', next)
                        && phase' == if next.Busy? then PutTrace(run, next.put) else AfterTrace(run, next.end)
    case _ => false
  }

  ghost predicate Init(st: State)
  {
    st == State(map[], map[])
  }

  /** A new request. Trace ids are version 7 UUIDs (section 5.7 of RFC 9562),
      taken as distinct. */
  ghost predicate Spawn(sys: Sys, st: State, st': State, id: string, job: Job)
  {
    && id !in st.threads && ValidKey(id) && JobOk(sys, job)
    && st' == State(st.files, st.threads[id := Thread(job, PutProgram(Look))])
  }

  ghost predicate ThreadStep(sys: Sys, st: State, st': State, id: string, phase': Phase)
  {
    && id in st.threads && Compile(sys, st.threads[id].job).Program?
    && ThreadNext(sys, id, st.files, st.threads[id], Taken(st, id), st'.files, phase')
    && st'.threads == st.threads[id := Thread(st.threads[id].job, phase')]
  }

  /** The process stops: any of the unfinished threads are gone, and every file,
      temp files included, stays as it is. */
  ghost predicate Crash(st: State, st': State, ids: set<string>)
  {
    && st'.files == st.files
    && st'.threads == map id | id in st.threads ::
         if id in ids && !st.threads[id].phase.Done? then st.threads[id].(phase := Crashed) else st.threads[id]
  }

  ghost predicate Next(sys: Sys, st: State, st': State)
  {
    || (exists id, job :: Spawn(sys, st, st', id, job))
    || (exists id, phase' :: ThreadStep(sys, st, st', id, phase'))
    || (exists ids :: Crash(st, st', ids))
  }

  ghost predicate Execution(sys: Sys, states: seq<State>)
  {
    states != [] && Init(states[0]) && Linked(Steps(sys), states)
  }

  ghost function Steps(sys: Sys): (State, State) -> bool
  {
    (st, st') => Next(sys, st, st')
  }

  // ---------------------------------------------------------------------
  // The invariant
  // ---------------------------------------------------------------------

  ghost predicate StoredBoth(sys: Sys, files: Files, job: Job)
    requires Compile(sys, job).Program?
  {
    ProgramPath(sys, job) in files && DescriptionPath(sys, job) in files
  }

  ghost predicate ValidRun(sys: Sys, job: Job, run: RunState)
    requires JobOk(sys, job)
  {
    RunInv(job.env, BeginVm(sys, job), run)
  }

  ghost predicate PhaseOk(sys: Sys, files: Files, id: string, job: Job, phase: Phase)
    requires JobOk(sys, job)
  {
    match phase
    case PutProgram(put) => PutOk(files, put, SourceOf(sys, job))
    case PutDescription(put) => ProgramPath(sys, job) in files && PutOk(files, put, DescriptionOf(sys, job).text)
    case Running(run) => StoredBoth(sys, files, job) && ValidRun(sys, job, run)
    case PutTrace(run, put) =>
      && StoredBoth(sys, files, job) && ValidRun(sys, job, run) && Finished(sys.core, run)
      && PutOk(files, put, TraceText(sys, job, id, run))
    case Done(run) =>
      && StoredBoth(sys, files, job) && ValidRun(sys, job, run) && Finished(sys.core, run)
      && TracePath(id) in files && files[TracePath(id)] == TraceText(sys, job, id, run)
    case _ => true
  }

  ghost predicate ThreadOk(sys: Sys, files: Files, id: string, t: Thread)
  {
    ValidKey(id) && JobOk(sys, t.job) && PhaseOk(sys, files, id, t.job, t.phase)
  }

  /** A visible file is one request's complete program or description, under its
      own hash, or the trace of a finished run. */
  ghost predicate IsProgramOf(sys: Sys, job: Job, h: string, content: string)
  {
    JobOk(sys, job) && HashOf(sys, job) == h && content == SourceOf(sys, job)
  }

  ghost predicate IsDescriptionOf(sys: Sys, job: Job, h: string, content: string)
  {
    DescriptionOf(sys, job).hash == h && content == DescriptionOf(sys, job).text
  }

  ghost predicate FileOk(sys: Sys, st: State, dir: Dir, key: string)
  {
    && KeyPath(dir, key) in st.files
    && var content := st.files[KeyPath(dir, key)];
       match dir
       case Programs => exists id :: id in st.threads && IsProgramOf(sys, st.threads[id].job, key, content)
       case Descriptions => exists id :: id in st.threads && IsDescriptionOf(sys, st.threads[id].job, key, content)
       case Traces => key in st.threads && st.threads[key].phase.Done?
  }

  ghost predicate FilesOk(sys: Sys, st: State)
  {
    forall dir, key {:trigger FileOk(sys, st, dir, key)} | ValidKey(key) && KeyPath(dir, key) in st.files ::
      FileOk(sys, st, dir, key)
  }

  ghost predicate ThreadsOk(sys: Sys, st: State)
  {
    forall id {:trigger ThreadOk(sys, st.files, id, st.threads[id])} | id in st.threads ::
      ThreadOk(sys, st.files, id, st.threads[id])
  }

  /** No two threads hold one temp file. */
  ghost predicate Apart(threads: map<string, Thread>)
  {
    forall i, j | i in threads && j in threads && i != j :: PhaseHolds(threads[i].phase) !! PhaseHolds(threads[j].phase)
  }

  ghost predicate Inv(sys: Sys, st: State)
  {
    FilesOk(sys, st) && ThreadsOk(sys, st) && Apart(st.threads)
  }

  /** What one thread's step may do to the files. */
  ghost predicate Touches(files: Files, files': Files, held: set<Path>, target: Path, content: string)
  {
    && !IsTemp(target) && (forall p | p in held :: IsTemp(p))
    && (forall p | p != target && p !in held :: SameAt(files, files', p))
    && (SameAt(files, files', target) || (target in files' && files'[target] == content))
  }

  /** The target of a thread's current put and the content it offers. */
  ghost predicate Offers(sys: Sys, id: string, t: Thread, target: Path, content: string)
    requires JobOk(sys, t.job)
  {
    || (target == ProgramPath(sys, t.job) && content == SourceOf(sys, t.job))
    || (target == DescriptionPath(sys, t.job) && content == DescriptionOf(sys, t.job).text)
    || (t.phase.PutTrace? && Finished(sys.core, t.phase.run)
        && target == TracePath(id) && content == TraceText(sys, t.job, id, t.phase.run))
  }

  /** The hashes that name a job's files are keys of the store. */
  lemma JobPaths(sys: Sys, job: Job)
    requires ValidSys(sys) && JobOk(sys, job)
    ensures ValidKey(HashOf(sys, job)) && ValidKey(DescriptionOf(sys, job).hash)
    ensures !IsTemp(ProgramPath(sys, job)) && !IsTemp(DescriptionPath(sys, job))
  {
    KeyPaths(Programs, HashOf(sys, job), Programs, HashOf(sys, job));
    KeyPaths(Descriptions, DescriptionOf(sys, job).hash, Programs, HashOf(sys, job));
  }

  /** The stored source is the compiled source, so it compiles, on its own, to
      the program the trace names. */
  lemma SourceCompiles(sys: Sys, job: Job)
    requires Builds(sys) && JobOk(sys, job)
    ensures sys.core.compile(SourceOf(sys, job)) == Accepted(Compile(sys, job).c)
    ensures Newlines(DescriptionOf(sys, job).prelude) == Offset(DescriptionOf(sys, job).prelude)
  {
    var prelude := DescriptionOf(sys, job).prelude;
    StoredSource(prelude, job.program);
  }

  // ---------------------------------------------------------------------
  // Steps keep the invariant
  // ---------------------------------------------------------------------

  /** One thread's step, summarised: the files it may touch, and its new phase. */
  ghost predicate Summary(
    sys: Sys, id: string, files: Files, t: Thread, taken: set<Path>, files': Files, phase': Phase,
    target: Path, content: string)
    requires JobOk(sys, t.job)
  {
    && Touches(files, files', PhaseHolds(t.phase), target, content)
    && Offers(sys, id, t, target, content)
    && PhaseOk(sys, files', id, t.job, phase')
    && (PhaseHolds(phase') <= PhaseHolds(t.phase) || PhaseHolds(phase') !! taken)
    && (target.dir.Traces? ==> target == TracePath(id) && (SameAt(files, files', target) || phase'.Done?))
    && !t.phase.Done?
  }

  lemma VisibleStays(files: Files, files': Files, held: set<Path>, target: Path, content: string, p: Path)
    requires Touches(files, files', held, target, content) && p in files && !IsTemp(p)
    ensures p in files'
  {
    assert p != target ==> SameAt(files, files', p);
  }

  /** `PutEffect`, as a thread needs it. */
  lemma PutTouches(
    files: Files, put: Put, target: Path, content: string, mode: Mode, taken: set<Path>, files': Files, next: PutState)
    requires PutOk(files, put, content) && !IsTemp(target)
    requires PutNext(files, put, target, content, mode, taken, files', next)
    ensures Touches(files, files', Holds(put), target, content)
    ensures next.Busy? ==> PutOk(files', next.put, content) && (Holds(next.put) == Holds(put) || Holds(next.put) !! taken)
    ensures next != Ended(Stored) ==> SameAt(files, files', target)
    ensures next == Ended(Stored) ==> target in files' && files'[target] == content
    ensures next == Ended(Conflict) ==> target in files'
  {
    PutEffect(files, put, target, content, mode, taken, files', next);
  }

  lemma ProgramStep(sys: Sys, id: string, files: Files, t: Thread, taken: set<Path>, files': Files, phase': Phase)
    requires ValidSys(sys) && ThreadOk(sys, files, id, t) && t.phase.PutProgram?
    requires ThreadNext(sys, id, files, t, taken, files', phase')
    ensures Touches(files, files', PhaseHolds(t.phase), ProgramPath(sys, t.job), SourceOf(sys, t.job))
    ensures PhaseOk(sys, files', id, t.job, phase')
    ensures PhaseHolds(phase') <= PhaseHolds(t.phase) || PhaseHolds(phase') !! taken
  {
    JobPaths(sys, t.job);
    var target, content := ProgramPath(sys, t.job), SourceOf(sys, t.job);
    var next :| PutNext(files, t.phase.put, target, content, Addressed, taken, files', next)
      && phase' == if next.Busy? then PutProgram(next.put) else AfterProgram(next.end);
    PutTouches(files, t.phase.put, target, content, Addressed, taken, files', next);
  }

  lemma DescriptionStep(sys: Sys, id: string, files: Files, t: Thread, taken: set<Path>, files': Files, phase': Phase)
    requires ValidSys(sys) && ThreadOk(sys, files, id, t) && t.phase.PutDescription?
    requires ThreadNext(sys, id, files, t, taken, files', phase')
    ensures Touches(files, files', PhaseHolds(t.phase), DescriptionPath(sys, t.job), DescriptionOf(sys, t.job).text)
    ensures PhaseOk(sys, files', id, t.job, phase')
    ensures PhaseHolds(phase') <= PhaseHolds(t.phase) || PhaseHolds(phase') !! taken
  {
    JobPaths(sys, t.job);
    var target, content := DescriptionPath(sys, t.job), DescriptionOf(sys, t.job).text;
    var next :| PutNext(files, t.phase.put, target, content, Addressed, taken, files', next)
      && phase' == if next.Busy? then PutDescription(next.put) else AfterDescription(sys, t.job, next.end);
    PutTouches(files, t.phase.put, target, content, Addressed, taken, files', next);
    VisibleStays(files, files', Holds(t.phase.put), target, content, ProgramPath(sys, t.job));
    BeginInv(t.job.env, BeginVm(sys, t.job));
  }

  lemma RunningStep(sys: Sys, id: string, files: Files, t: Thread, taken: set<Path>, files': Files, phase': Phase)
    requires ValidSys(sys) && ThreadOk(sys, files, id, t) && t.phase.Running?
    requires ThreadNext(sys, id, files, t, taken, files', phase')
    ensures Touches(files, files', PhaseHolds(t.phase), ProgramPath(sys, t.job), SourceOf(sys, t.job))
    ensures PhaseOk(sys, files', id, t.job, phase')
    ensures PhaseHolds(phase') <= PhaseHolds(t.phase) || PhaseHolds(phase') !! taken
  {
    JobPaths(sys, t.job);
    var run := t.phase.run;
    if !Halted(sys.core, run.vm) {
      var oracle: Oracle :| phase' == Running(Advance(t.job.env, run, oracle));
      AdvanceKeepsInv(t.job.env, BeginVm(sys, t.job), run, oracle);
    }
  }

  lemma TraceStep(sys: Sys, id: string, files: Files, t: Thread, taken: set<Path>, files': Files, phase': Phase)
    requires ValidSys(sys) && ThreadOk(sys, files, id, t) && t.phase.PutTrace?
    requires ThreadNext(sys, id, files, t, taken, files', phase')
    ensures Touches(files, files', PhaseHolds(t.phase), TracePath(id), TraceText(sys, t.job, id, t.phase.run))
    ensures PhaseOk(sys, files', id, t.job, phase')
    ensures PhaseHolds(phase') <= PhaseHolds(t.phase) || PhaseHolds(phase') !! taken
    ensures SameAt(files, files', TracePath(id)) || phase'.Done?
  {
    JobPaths(sys, t.job);
    KeyPaths(Traces, id, Traces, id);
    var run := t.phase.run;
    var target, content := TracePath(id), TraceText(sys, t.job, id, run);
    var next :| PutNext(files, t.phase.put, target, content, Unique, taken, files', next)
      && phase' == if next.Busy? then PutTrace(run, next.put) else AfterTrace(run, next.end);
    PutTouches(files, t.phase.put, target, content, Unique, taken, files', next);
    VisibleStays(files, files', Holds(t.phase.put), target, content, ProgramPath(sys, t.job));
    VisibleStays(files, files', Holds(t.phase.put), target, content, DescriptionPath(sys, t.job));
  }

  lemma PutKept(files: Files, files': Files, held: set<Path>, target: Path, content: string, put: Put, offer: string)
    requires Touches(files, files', held, target, content)
    requires PutOk(files, put, offer) && held !! Holds(put)
    ensures PutOk(files', put, offer)
  {
    if put.Open? {
      assert put.tmp in Holds(put);
      assert SameAt(files, files', put.tmp);
    }
  }

  /** Another thread is not disturbed. */
  lemma OtherKept(
    sys: Sys, files: Files, files': Files, held: set<Path>, target: Path, content: string, j: string, u: Thread)
    requires ValidSys(sys) && ThreadOk(sys, files, j, u)
    requires Touches(files, files', held, target, content)
    requires held !! PhaseHolds(u.phase) && target != TracePath(j)
    ensures ThreadOk(sys, files', j, u)
  {
    JobPaths(sys, u.job);
    var program, description := ProgramPath(sys, u.job), DescriptionPath(sys, u.job);
    if program in files {
      VisibleStays(files, files', held, target, content, program);
    }
    if description in files {
      VisibleStays(files, files', held, target, content, description);
    }
    match u.phase
    case PutProgram(put) => PutKept(files, files', held, target, content, put, SourceOf(sys, u.job));
    case PutDescription(put) => PutKept(files, files', held, target, content, put, DescriptionOf(sys, u.job).text);
    case PutTrace(run, put) => PutKept(files, files', held, target, content, put, TraceText(sys, u.job, j, run));
    case Done(run) =>
      KeyPaths(Traces, j, Traces, j);
      assert SameAt(files, files', TracePath(j));
    case _ =>
  }

  ghost predicate Extends(threads: map<string, Thread>, threads': map<string, Thread>)
  {
    forall id | id in threads :: id in threads' && threads'[id].job == threads[id].job
  }

  /** A file a step leaves alone stays accounted for. */
  lemma FileKept(sys: Sys, st: State, st': State, dir: Dir, key: string)
    requires FileOk(sys, st, dir, key) && SameAt(st.files, st'.files, KeyPath(dir, key))
    requires Extends(st.threads, st'.threads)
    requires forall j | j in st.threads && st.threads[j].phase.Done? :: j in st'.threads && st'.threads[j].phase.Done?
    ensures FileOk(sys, st', dir, key)
  {
    var content := st.files[KeyPath(dir, key)];
    match dir
    case Programs =>
      var id :| id in st.threads && IsProgramOf(sys, st.threads[id].job, key, content);
      assert st'.threads[id].job == st.threads[id].job;
    case Descriptions =>
      var id :| id in st.threads && IsDescriptionOf(sys, st.threads[id].job, key, content);
      assert st'.threads[id].job == st.threads[id].job;
    case Traces =>
  }

  /** A file a step has written is the whole offer of the thread that stepped. */
  lemma FileOffered(sys: Sys, st': State, id: string, t: Thread, target: Path, content: string, dir: Dir, key: string)
    requires JobOk(sys, t.job) && Offers(sys, id, t, target, content)
    requires id in st'.threads && st'.threads[id].job == t.job
    requires target == KeyPath(dir, key) && target in st'.files && st'.files[target] == content
    requires target.dir.Traces? ==> target == TracePath(id) && st'.threads[id].phase.Done?
    ensures FileOk(sys, st', dir, key)
  {
    match dir
    case Programs =>
      KeyPaths(dir, key, Programs, HashOf(sys, t.job));
      assert IsProgramOf(sys, st'.threads[id].job, key, content);
    case Descriptions =>
      KeyPaths(dir, key, Descriptions, DescriptionOf(sys, t.job).hash);
      assert IsDescriptionOf(sys, st'.threads[id].job, key, content);
    case Traces =>
      KeyPaths(dir, key, Traces, id);
  }

  lemma StepSummary(
    sys: Sys, id: string, files: Files, t: Thread, taken: set<Path>, files': Files, phase': Phase)
    returns (target: Path, content: string)
    requires ValidSys(sys) && ThreadOk(sys, files, id, t)
    requires ThreadNext(sys, id, files, t, taken, files', phase')
    ensures Summary(sys, id, files, t, taken, files', phase', target, content)
  {
    if t.phase.PutProgram? {
      ProgramStep(sys, id, files, t, taken, files', phase');
      target, content := ProgramPath(sys, t.job), SourceOf(sys, t.job);
    } else if t.phase.PutDescription? {
      DescriptionStep(sys, id, files, t, taken, files', phase');
      target, content := DescriptionPath(sys, t.job), DescriptionOf(sys, t.job).text;
    } else if t.phase.Running? {
      RunningStep(sys, id, files, t, taken, files', phase');
      target, content := ProgramPath(sys, t.job), SourceOf(sys, t.job);
    } else {
      TraceStep(sys, id, files, t, taken, files', phase');
      target, content := TracePath(id), TraceText(sys, t.job, id, t.phase.run);
    }
  }

  lemma StepKeepsFiles(
    sys: Sys, st: State, st': State, id: string, phase': Phase, held: set<Path>, target: Path, content: string)
    requires FilesOk(sys, st) && id in st.threads && JobOk(sys, st.threads[id].job) && !st.threads[id].phase.Done?
    requires st'.threads == st.threads[id := Thread(st.threads[id].job, phase')]
    requires Touches(st.files, st'.files, held, target, content) && Offers(sys, id, st.threads[id], target, content)
    requires target.dir.Traces? ==> target == TracePath(id) && (SameAt(st.files, st'.files, target) || phase'.Done?)
    ensures FilesOk(sys, st')
  {
    forall dir, key | ValidKey(key) && KeyPath(dir, key) in st'.files ensures FileOk(sys, st', dir, key) {
      var path := KeyPath(dir, key);
      KeyPaths(dir, key, dir, key);
      if SameAt(st.files, st'.files, path) {
        assert FileOk(sys, st, dir, key);
        FileKept(sys, st, st', dir, key);
      } else {
        assert path == target;
        FileOffered(sys, st', id, st.threads[id], target, content, dir, key);
      }
    }
  }

  lemma StepKeepsThreads(sys: Sys, st: State, st': State, id: string, phase': Phase, target: Path, content: string)
    requires ValidSys(sys) && Inv(sys, st) && ThreadStep(sys, st, st', id, phase') && JobOk(sys, st.threads[id].job)
    requires Summary(sys, id, st.files, st.threads[id], Taken(st, id), st'.files, phase', target, content)
    ensures ThreadsOk(sys, st')
  {
    forall j | j in st'.threads ensures ThreadOk(sys, st'.files, j, st'.threads[j]) {
      assert ThreadOk(sys, st.files, j, st.threads[j]);
      if j != id {
        KeyPaths(Traces, id, Traces, j);
        OtherKept(sys, st.files, st'.files, PhaseHolds(st.threads[id].phase), target, content, j, st.threads[j]);
      }
    }
  }

  lemma StepKeepsApart(st: State, id: string, phase': Phase)
    requires Apart(st.threads) && id in st.threads
    requires PhaseHolds(phase') <= PhaseHolds(st.threads[id].phase) || PhaseHolds(phase') !! Taken(st, id)
    ensures Apart(st.threads[id := Thread(st.threads[id].job, phase')])
  {
    forall j | j in st.threads && j != id ensures PhaseHolds(st.threads[j].phase) !! PhaseHolds(phase') {
      assert forall p | p in PhaseHolds(st.threads[j].phase) :: p in Taken(st, id);
    }
  }

  lemma StepKeepsInv(sys: Sys, st: State, st': State, id: string, phase': Phase)
    requires ValidSys(sys) && Inv(sys, st) && ThreadStep(sys, st, st', id, phase')
    ensures Inv(sys, st')
  {
    assert ThreadOk(sys, st.files, id, st.threads[id]);
    var target, content := StepSummary(sys, id, st.files, st.threads[id], Taken(st, id), st'.files, phase');
    StepKeepsFiles(sys, st, st', id, phase', PhaseHolds(st.threads[id].phase), target, content);
    StepKeepsThreads(sys, st, st', id, phase', target, content);
    StepKeepsApart(st, id, phase');
  }

  lemma SpawnKeepsThreads(sys: Sys, files: Files, threads: map<string, Thread>, id: string, job: Job)
    requires ThreadsOk(sys, State(files, threads)) && ValidKey(id) && JobOk(sys, job)
    ensures ThreadsOk(sys, State(files, threads[id := Thread(job, PutProgram(Look))]))
  {
    var threads' := threads[id := Thread(job, PutProgram(Look))];
    forall j | j in threads' ensures ThreadOk(sys, files, j, threads'[j]) {
      if j != id {
        assert ThreadOk(sys, files, j, State(files, threads).threads[j]);
      }
    }
  }

  lemma SpawnKeepsInv(sys: Sys, st: State, st': State, id: string, job: Job)
    requires Inv(sys, st) && Spawn(sys, st, st', id, job)
    ensures Inv(sys, st')
  {
    forall dir, key | ValidKey(key) && KeyPath(dir, key) in st'.files ensures FileOk(sys, st', dir, key) {
      assert FileOk(sys, st, dir, key);
      FileKept(sys, st, st', dir, key);
    }
    SpawnKeepsThreads(sys, st.files, st.threads, id, job);
  }

  lemma CrashKeepsInv(sys: Sys, st: State, st': State, ids: set<string>)
    requires Inv(sys, st) && Crash(st, st', ids)
    ensures Inv(sys, st')
  {
    forall dir, key | ValidKey(key) && KeyPath(dir, key) in st'.files ensures FileOk(sys, st', dir, key) {
      assert FileOk(sys, st, dir, key);
      FileKept(sys, st, st', dir, key);
    }
    forall j | j in st'.threads ensures ThreadOk(sys, st'.files, j, st'.threads[j]) {
      assert ThreadOk(sys, st.files, j, st.threads[j]);
    }
  }

  lemma NextKeepsInv(sys: Sys, st: State, st': State)
    requires ValidSys(sys) && Inv(sys, st) && Next(sys, st, st')
    ensures Inv(sys, st')
  {
    if id, job :| Spawn(sys, st, st', id, job) {
      SpawnKeepsInv(sys, st, st', id, job);
    } else if id, phase' :| ThreadStep(sys, st, st', id, phase') {
      StepKeepsInv(sys, st, st', id, phase');
    } else {
      var ids :| Crash(st, st', ids);
      CrashKeepsInv(sys, st, st', ids);
    }
  }

  /** Every state of every interleaving satisfies the invariant. */
  lemma {:induction false} Reachable(sys: Sys, states: seq<State>, i: nat)
    requires ValidSys(sys) && Execution(sys, states) && i < |states|
    ensures Inv(sys, states[i])
  {
    if i == 0 {
    } else {
      Reachable(sys, states, i - 1);
      LinkedAt(Steps(sys), states, i - 1);
      NextKeepsInv(sys, states[i - 1], states[i]);
    }
  }

  // ---------------------------------------------------------------------
  // Main results
  // ---------------------------------------------------------------------

  lemma ZipRecords(records: seq<Record>, log: seq<(CallDecision, Provenance.Tag)>)
    requires |records| == |log|
    ensures Records(Zip(records, log)) == records
  {
  }

  /** The program a visible trace or running thread names is stored, whichever
      of the sources with its bytecode was written last. */
  lemma ProgramStored(sys: Sys, st: State, job: Job)
    requires ValidSys(sys) && Inv(sys, st) && JobOk(sys, job) && ProgramPath(sys, job) in st.files
    ensures var compiled := sys.core.compile(st.files[ProgramPath(sys, job)]);
            compiled.Accepted? && compiled.c.code == Compile(sys, job).c.code
  {
    JobPaths(sys, job);
    assert FileOk(sys, st, Programs, HashOf(sys, job));
    var content := st.files[ProgramPath(sys, job)];
    var j :| j in st.threads && IsProgramOf(sys, st.threads[j].job, HashOf(sys, job), content);
    SourceCompiles(sys, st.threads[j].job);
  }

  lemma DescriptionStored(sys: Sys, st: State, job: Job)
    requires ValidSys(sys) && Inv(sys, st) && JobOk(sys, job) && DescriptionPath(sys, job) in st.files
    ensures st.files[DescriptionPath(sys, job)] == DescriptionOf(sys, job).text
    ensures sys.crypto.textHash(DescriptionOf(sys, job).text) == DescriptionOf(sys, job).hash
  {
    JobPaths(sys, job);
    var h := DescriptionOf(sys, job).hash;
    assert FileOk(sys, st, Descriptions, h);
    var content := st.files[DescriptionPath(sys, job)];
    var j :| j in st.threads && IsDescriptionOf(sys, st.threads[j].job, h, content);
    assert sys.crypto.textHash(content) == h == sys.crypto.textHash(DescriptionOf(sys, job).text);
  }

  /** No tool call precedes the two writes: a thread that is running, or has
      run, has its program and description in the store. */
  lemma WritesPrecedeCalls(sys: Sys, states: seq<State>, i: nat, id: string)
    requires ValidSys(sys) && Execution(sys, states) && i < |states| && id in states[i].threads
    requires var phase := states[i].threads[id].phase; phase.Running? || phase.PutTrace? || phase.Done?
    ensures var st, job := states[i], states[i].threads[id].job;
            && JobOk(sys, job) && StoredBoth(sys, st.files, job)
            && var compiled := sys.core.compile(st.files[ProgramPath(sys, job)]);
               compiled.Accepted? && sys.core.programHash(compiled.c.code) == HashOf(sys, job)
               && sys.crypto.textHash(st.files[DescriptionPath(sys, job)]) == DescriptionOf(sys, job).hash
  {
    Reachable(sys, states, i);
    var st, job := states[i], states[i].threads[id].job;
    assert ThreadOk(sys, st.files, id, st.threads[id]);
    ProgramStored(sys, st, job);
    DescriptionStored(sys, st, job);
  }

  /** A finished run's trace loads, with whatever source its program path holds. */
  lemma LoadsTrace(sys: Sys, files: Files, id: string, trace: Trace, program: Compiled)
    requires Sound(sys.crypto) && ValidKey(id) && ValidKey(trace.header.programHash)
    requires TracePath(id) in files && files[TracePath(id)] == sys.crypto.toJson(trace)
    requires Verifies(sys.crypto, sys.key, trace)
    requires KeyPath(Programs, trace.header.programHash) in files
    requires sys.core.compile(files[KeyPath(Programs, trace.header.programHash)]) == Accepted(program)
    ensures Replay.Load(sys.core, sys.crypto, sys.key, files, id) == Ok(Replay.Loaded(trace, program))
  {
  }

  lemma TraceVerifies(sys: Sys, job: Job, id: string, run: RunState)
    requires Sound(sys.crypto) && Compile(sys, job).Program? && Finished(sys.core, run)
    ensures Verifies(sys.crypto, sys.key, TraceOf(sys, job, id, run))
  {
    var trace := TraceOf(sys, job, id, run);
    var unsigned := trace.(footer := trace.footer.(signature := ""));
    SignedVerifies(sys.crypto, sys.key, unsigned);
  }

  /** A finished run's trace matches when any program with its bytecode is run. */
  lemma RunMatches(sys: Sys, job: Job, id: string, run: RunState, program: Compiled)
    requires ValidSys(sys) && JobOk(sys, job) && ValidRun(sys, job, run) && Finished(sys.core, run)
    requires program.code == Compile(sys, job).c.code
    ensures Replay.ReplayStored(sys.core, Replay.Loaded(TraceOf(sys, job, id, run), program)).mismatches == []
  {
    HaltedReplays(job.env, BeginVm(sys, job), run);
    ZipRecords(run.transcript, run.host.log);
    FooterIgnoresLines(
      sys.core, program.lines, Compile(sys, job).c.lines, 0, Newlines(DescriptionOf(sys, job).prelude),
      job.vm.maxOutputBytes, run.vm);
    Replay.FollowedMatches(sys.core, Replay.Loaded(TraceOf(sys, job, id, run), program), run.vm);
  }

  /** Store integrity, read off a visible trace's own header: the program it
      names is stored and compiles to its program hash, and the description it
      names is stored and hashes to its description hash. */
  lemma VisibleTraceSources(sys: Sys, states: seq<State>, i: nat, id: string)
    requires ValidSys(sys) && Execution(sys, states) && i < |states|
    requires ValidKey(id) && TracePath(id) in states[i].files
    ensures var files := states[i].files;
            var trace := sys.crypto.fromJson(files[TracePath(id)]);
            && trace.Some?
            && var header := trace.value.header;
               var program, description := KeyPath(Programs, header.programHash), KeyPath(Descriptions, header.descriptionHash);
               && program in files && description in files
               && sys.core.compile(files[program]).Accepted?
               && sys.core.programHash(sys.core.compile(files[program]).c.code) == header.programHash
               && sys.crypto.textHash(files[description]) == header.descriptionHash
  {
    Reachable(sys, states, i);
    var st := states[i];
    assert FileOk(sys, st, Traces, id);
    assert ThreadOk(sys, st.files, id, st.threads[id]);
    var job, run := st.threads[id].job, st.threads[id].phase.run;
    assert sys.crypto.fromJson(sys.crypto.toJson(TraceOf(sys, job, id, run))) == Some(TraceOf(sys, job, id, run));
    ProgramStored(sys, st, job);
    DescriptionStored(sys, st, job);
  }

  /** Replay completeness. In every state of every interleaving, with crashes,
      every visible trace loads, verifies and replays with no mismatch. */
  lemma EveryStoredTraceReplays(sys: Sys, states: seq<State>, i: nat, id: string)
    requires ValidSys(sys) && Execution(sys, states) && i < |states|
    requires ValidKey(id) && TracePath(id) in states[i].files
    ensures var stored := Replay.Load(sys.core, sys.crypto, sys.key, states[i].files, id);
            stored.Ok? && Replay.ReplayStored(sys.core, stored.value).mismatches == []
  {
    Reachable(sys, states, i);
    VisibleTraceReplays(sys, states[i], id);
  }

  lemma VisibleTraceReplays(sys: Sys, st: State, id: string)
    requires ValidSys(sys) && Inv(sys, st) && ValidKey(id) && TracePath(id) in st.files
    ensures var stored := Replay.Load(sys.core, sys.crypto, sys.key, st.files, id);
            stored.Ok? && Replay.ReplayStored(sys.core, stored.value).mismatches == []
  {
    assert FileOk(sys, st, Traces, id);
    var job, run := st.threads[id].job, st.threads[id].phase.run;
    assert ThreadOk(sys, st.files, id, st.threads[id]);
    JobPaths(sys, job);
    ProgramStored(sys, st, job);
    var program := sys.core.compile(st.files[ProgramPath(sys, job)]).c;
    TraceVerifies(sys, job, id, run);
    LoadsTrace(sys, st.files, id, TraceOf(sys, job, id, run), program);
    RunMatches(sys, job, id, run, program);
  }

  /** Enforcement, at every moment of every run, stored or not: the log and
      core's transcript line up, each entry is permitted or refused as logged,
      and the requests sent are exactly those the entries stand for. */
  lemma Enforced(sys: Sys, states: seq<State>, i: nat, id: string)
    requires ValidSys(sys) && Execution(sys, states) && i < |states| && id in states[i].threads
    requires var phase := states[i].threads[id].phase; phase.Running? || phase.PutTrace? || phase.Done?
    ensures var env, run := states[i].threads[id].job.env, states[i].threads[id].phase.run;
            && |run.transcript| == |run.host.log|
            && var entries := Zip(run.transcript, run.host.log);
               && (forall e | e in entries :: EntryOk(env, e))
               && run.host.dispatched == AllRequests(env.core, entries)
  {
    Reachable(sys, states, i);
    assert ThreadOk(sys, states[i].files, id, states[i].threads[id]);
  }

  /** A header names the request's own principal, rules, limits and sources. */
  ghost predicate NamesRequest(sys: Sys, job: Job, id: string, header: Header)
    requires Compile(sys, job).Program?
  {
    && header.traceId == id && header.principal == job.env.principal && header.policyHash == job.policyHash
    && header.session == job.session && header.request == job.request && header.vmConfig == job.vm
    && header.programHash == HashOf(sys, job) && header.descriptionHash == DescriptionOf(sys, job).hash
  }

  /** A trace says what was asked, under which rules and limits, what its run did,
      and how it ended. */
  ghost predicate Describes(sys: Sys, job: Job, run: RunState, id: string, trace: Trace)
    requires Compile(sys, job).Program?
  {
    && NamesRequest(sys, job, id, trace.header)
    && |trace.entries| == |run.host.log|
    && (forall k | 0 <= k < |run.host.log| ::
          EntryOk(job.env, trace.entries[k])
          && (trace.entries[k].decision, trace.entries[k].provenance) == run.host.log[k])
    && run.host.dispatched == AllRequests(sys.core, trace.entries)
    && Tells(sys.core, Compile(sys, job).c.lines, run.vm, job.vm.maxOutputBytes, trace.footer)
  }

  lemma TraceDescribes(sys: Sys, job: Job, id: string, run: RunState)
    requires JobOk(sys, job) && ValidRun(sys, job, run) && Finished(sys.core, run)
    ensures Describes(sys, job, run, id, TraceOf(sys, job, id, run))
  {
    assert TraceOf(sys, job, id, run).entries == Zip(run.transcript, run.host.log);
    FooterTells(
      sys.core, Compile(sys, job).c.lines, Newlines(DescriptionOf(sys, job).prelude), job.vm.maxOutputBytes, run.vm);
  }

  /** What a visible trace says: whose request it was, under which rules and
      limits; one entry per call the host saw, in order, each permitted or refused
      as recorded under those rules; the requests sent, which are exactly those
      its entries stand for; and how the run ended. */
  lemma StoredEntries(sys: Sys, states: seq<State>, i: nat, id: string)
    requires ValidSys(sys) && Execution(sys, states) && i < |states|
    requires ValidKey(id) && TracePath(id) in states[i].files
    ensures var trace := sys.crypto.fromJson(states[i].files[TracePath(id)]);
            && trace.Some? && id in states[i].threads && states[i].threads[id].phase.Done?
            && Compile(sys, states[i].threads[id].job).Program?
            && Describes(sys, states[i].threads[id].job, states[i].threads[id].phase.run, id, trace.value)
  {
    Reachable(sys, states, i);
    var st := states[i];
    assert FileOk(sys, st, Traces, id);
    assert ThreadOk(sys, st.files, id, st.threads[id]);
    var job, run := st.threads[id].job, st.threads[id].phase.run;
    TraceDescribes(sys, job, id, run);
    assert sys.crypto.fromJson(sys.crypto.toJson(TraceOf(sys, job, id, run))) == Some(TraceOf(sys, job, id, run));
  }

  lemma StepKeepsVisible(
    sys: Sys, st: State, id: string, phase': Phase, files': Files, target: Path, content: string, dir: Dir, key: string)
    requires ValidSys(sys) && Inv(sys, st) && id in st.threads && JobOk(sys, st.threads[id].job)
    requires Summary(sys, id, st.files, st.threads[id], Taken(st, id), files', phase', target, content)
    requires ValidKey(key) && KeyPath(dir, key) in st.files
    ensures KeyPath(dir, key) in files'
    ensures !dir.Programs? ==> files'[KeyPath(dir, key)] == st.files[KeyPath(dir, key)]
  {
    var t, path := st.threads[id], KeyPath(dir, key);
    KeyPaths(dir, key, dir, key);
    VisibleStays(st.files, files', PhaseHolds(t.phase), target, content, path);
    KeyPaths(dir, key, Traces, id);
    assert FileOk(sys, st, dir, key);
    if path != target || dir.Traces? {
      assert SameAt(st.files, files', path);
    } else if dir.Descriptions? {
      DescriptionStored(sys, st, t.job);
    }
  }

  /** A visible file never goes away, and a visible trace or description never
      changes. */
  lemma VisibleFilesStay(sys: Sys, st: State, st': State, dir: Dir, key: string)
    requires ValidSys(sys) && Inv(sys, st) && Next(sys, st, st')
    requires ValidKey(key) && KeyPath(dir, key) in st.files
    ensures KeyPath(dir, key) in st'.files
    ensures !dir.Programs? ==> st'.files[KeyPath(dir, key)] == st.files[KeyPath(dir, key)]
  {
    if id, phase' :| ThreadStep(sys, st, st', id, phase') {
      var t := st.threads[id];
      assert ThreadOk(sys, st.files, id, t);
      var target, content := StepSummary(sys, id, st.files, t, Taken(st, id), st'.files, phase');
      StepKeepsVisible(sys, st, id, phase', st'.files, target, content, dir, key);
    }
  }

  lemma {:induction false} VisibleFilesPersist(sys: Sys, states: seq<State>, i: nat, j: nat, dir: Dir, key: string)
    requires ValidSys(sys) && Execution(sys, states) && i <= j < |states|
    requires ValidKey(key) && KeyPath(dir, key) in states[i].files
    ensures KeyPath(dir, key) in states[j].files
    ensures !dir.Programs? ==> states[j].files[KeyPath(dir, key)] == states[i].files[KeyPath(dir, key)]
    decreases j
  {
    if i == j {
    } else {
      var k := j - 1;
      VisibleFilesPersist(sys, states, i, k, dir, key);
      Reachable(sys, states, k);
      LinkedAt(Steps(sys), states, k);
      VisibleFilesStay(sys, states[k], states[j], dir, key);
    }
  }

  /** A run that starts can lose its trace only to an I/O error or a crash: the
      description never conflicts, and the trace id is never already used. */
  lemma NoConflict(sys: Sys, states: seq<State>, i: nat, id: string)
    requires ValidSys(sys) && Execution(sys, states) && i < |states| && id in states[i].threads
    ensures var st, t := states[i], states[i].threads[id];
            && (t.phase == PutDescription(Look) && DescriptionPath(sys, t.job) in st.files ==>
                  st.files[DescriptionPath(sys, t.job)] == DescriptionOf(sys, t.job).text)
            && (!t.phase.Done? ==> TracePath(id) !in st.files)
  {
    Reachable(sys, states, i);
    var st, t := states[i], states[i].threads[id];
    assert ThreadOk(sys, st.files, id, t);
    if DescriptionPath(sys, t.job) in st.files {
      DescriptionStored(sys, st, t.job);
    }
    if TracePath(id) in st.files {
      assert FileOk(sys, st, Traces, id);
    }
  }
}
