/** One `execute` request as the engine performs it, and the answer it gets. */
module Engine {
  import opened Text
  import opened Values
  import opened Core
  import opened Tracing
  import opened Dialect
  import opened Host
  import opened Run
  import opened Store
  import opened Gateway
  import opened Progress
  import Replay
  import opened Answers

  /** The trace loads from the store, verifies, and replays with no mismatch. */
  ghost predicate ReplaysFrom(sys: Sys, files: Files, id: string)
    requires ValidSys(sys)
  {
    var stored := Replay.Load(sys.core, sys.crypto, sys.key, files, id);
    stored.Ok? && Replay.ReplayStored(sys.core, stored.value).mismatches == []
  }

  /** The stored source, if there is one, has the job's bytecode. */
  ghost predicate Consistent(sys: Sys, files: Files, job: Job)
    requires Compile(sys, job).Program?
  {
    ProgramPath(sys, job) in files ==>
      var compiled := sys.core.compile(files[ProgramPath(sys, job)]);
      compiled.Accepted? && compiled.c.code == Compile(sys, job).c.code
  }

  /** The run's trace is stored; read back, it says what the request was and what
      its run did, and the result is its footer's. */
  ghost predicate TraceRecorded(sys: Sys, job: Job, id: string, run: RunState, files: Files, r: ExecuteResult)
  {
    && JobOk(sys, job) && ValidRun(sys, job, run) && Finished(sys.core, run)
    && TracePath(id) in files && files[TracePath(id)] == TraceText(sys, job, id, run)
    && var trace := sys.crypto.fromJson(files[TracePath(id)]);
       && trace.Some? && Describes(sys, job, run, id, trace.value)
       && r == Ran(id, trace.value.footer.output, trace.value.footer.status)
  }

  lemma RecordedReplays(sys: Sys, job: Job, id: string, run: RunState, files: Files, r: ExecuteResult)
    requires ValidSys(sys) && ValidKey(id) && TraceRecorded(sys, job, id, run, files, r)
    requires ProgramPath(sys, job) in files && Consistent(sys, files, job)
    ensures ReplaysFrom(sys, files, id)
  {
    JobPaths(sys, job);
    var program := sys.core.compile(files[ProgramPath(sys, job)]).c;
    TraceVerifies(sys, job, id, run);
    LoadsTrace(sys, files, id, TraceOf(sys, job, id, run), program);
    RunMatches(sys, job, id, run, program);
  }

  /** `put_program` and `put_description`, over any two paths and contents. A
      conflict on the first keeps what is stored. */
  method StoreTwo(
    store: TraceStore, program: Path, source: string, description: Path, text: string, faults: (nat, nat),
    ghost taken: set<Path>)
    returns (ok: bool, ghost trails: (seq<(Files, PutState)>, seq<(Files, PutState)>), ghost between: (Files, PutEnd),
             ghost end: PutEnd)
    requires !IsTemp(program) && !IsTemp(description) && program.dir != description.dir
    requires Unheld(taken, store.pid, store.counter)
    modifies store
    ensures Unheld(taken, store.pid, store.counter)
    ensures Leads(program, source, Addressed, taken, trails.0, old(store.files), between.0, between.1)
    ensures if between.1.IoError? then !ok && store.files == between.0
            else Leads(description, text, Addressed, taken, trails.1, between.0, store.files, end) && ok == end.Stored?
    ensures Untouched(old(store.files), store.files, {program, description})
    ensures ok ==> program in store.files && description in store.files
    ensures ok ==> store.files[program] == if program in old(store.files) then old(store.files)[program] else source
    ensures forall p: Path | p.dir != program.dir && p.dir != description.dir :: SameAt(old(store.files), store.files, p)
    ensures faults.0 >= 4 && faults.1 >= 4 ==>
      (ok <==> SourcesClear(old(store.files), program, description, text, store.pid, old(store.counter)))
    ensures ok ==>
      store.counter == Uses(old(store.files), description, Uses(old(store.files), program, old(store.counter)))
  {
    ghost var files0 := store.files;
    var first, trail := store.Put(program, source, Addressed, faults.0, taken);
    ghost var files1 := store.files;
    trails, between, end := (trail, []), (files1, first), first;
    if first.IoError? {
      return false, trails, between, end;
    }
    assert program in files0 ==> SameAt(files0, files1, program);
    assert SameAt(files0, files1, description);
    assert forall n: nat :: SameAt(files0, files1, TempPath(description.dir, store.pid, n));
    var second, trail' := store.Put(description, text, Addressed, faults.1, taken);
    trails, end := (trail, trail'), second;
    UntouchedTwice(files0, files1, store.files, {program}, {description});
    assert {program} + {description} == {program, description};
    assert SameAt(files1, store.files, program);
    ok := second.Stored?;
  }

  /** The two writes before the run: a course of the thread from its start. */
  method StoreSources(
    sys: Sys, job: Job, ghost id: string, store: TraceStore, faults: (nat, nat), ghost taken: set<Path>)
    returns (ok: bool, ghost course: seq<(Files, Phase)>)
    requires ValidSys(sys) && JobOk(sys, job) && Unheld(taken, store.pid, store.counter)
    modifies store
    ensures Unheld(taken, store.pid, store.counter)
    ensures Follows(
      sys, id, job, taken, course,
      (old(store.files), PutProgram(Look)), (store.files, AfterSources(sys, job, ok)))
    ensures Untouched(old(store.files), store.files, {ProgramPath(sys, job), DescriptionPath(sys, job)})
    ensures ok ==> StoredBoth(sys, store.files, job)
    ensures ok && Consistent(sys, old(store.files), job) ==> Consistent(sys, store.files, job)
    ensures forall p: Path | p.dir == Traces :: SameAt(old(store.files), store.files, p)
    ensures faults.0 >= 4 && faults.1 >= 4 ==>
      (ok <==> SourcesClear(
                 old(store.files), ProgramPath(sys, job), DescriptionPath(sys, job), DescriptionOf(sys, job).text,
                 store.pid, old(store.counter)))
    ensures ok ==> store.counter == TraceCounter(sys, old(store.files), job, old(store.counter))
  {
    JobPaths(sys, job);
    SourceCompiles(sys, job);
    ghost var files := store.files;
    ghost var trails, between, end;
    ok, trails, between, end := StoreTwo(
      store, ProgramPath(sys, job), SourceOf(sys, job), DescriptionPath(sys, job), DescriptionOf(sys, job).text, faults,
      taken);
    course := SourcesFollow(sys, id, job, taken, trails, files, between, store.files, end);
  }

  /** The run and its signed trace. */
  method RunAndSign(sys: Sys, job: Job, id: string, oracle: Oracle) returns (trace: Trace)
    requires ValidSys(sys) && JobOk(sys, job)
    ensures Finished(sys.core, JobRun(sys, job, oracle)) && trace == TraceOf(sys, job, id, JobRun(sys, job, oracle))
    ensures Describes(sys, job, JobRun(sys, job, oracle), id, trace) && Verifies(sys.crypto, sys.key, trace)
  {
    var description, program := DescriptionOf(sys, job), Compile(sys, job).c;
    var entries, footer := RunProgram(
      job.env, BeginVm(sys, job), program.lines, Newlines(description.prelude), job.vm.maxOutputBytes, oracle);
    var header := Header(
      id, job.session, job.env.principal, HashOf(sys, job), job.policyHash, description.hash, job.vm, job.request);
    JobRunIsValid(sys, job, oracle);
    TraceDescribes(sys, job, id, JobRun(sys, job, oracle));
    TraceVerifies(sys, job, id, JobRun(sys, job, oracle));
    trace := Sign(sys.crypto, sys.key, Trace(header, entries, footer));
  }

  ghost function Final(sys: Sys, job: Job, oracle: Oracle, r: ExecuteResult): Phase
    requires JobOk(sys, job)
  {
    if r.Ran? then Done(JobRun(sys, job, oracle)) else Aborted
  }

  /** The run, once both sources are stored. */
  method RunAndStore(
    sys: Sys, job: Job, id: string, store: TraceStore, oracle: Oracle, fault: nat, ghost taken: set<Path>)
    returns (r: ExecuteResult, ghost course: seq<(Files, Phase)>)
    requires ValidSys(sys) && JobOk(sys, job) && ValidKey(id) && StoredBoth(sys, store.files, job)
    requires Unheld(taken, store.pid, store.counter)
    modifies store
    ensures r.Ran? || r == StoreFailed
    ensures Follows(
      sys, id, job, taken, course,
      (old(store.files), Running(Begin(BeginVm(sys, job)))), (store.files, Final(sys, job, oracle, r)))
    ensures Untouched(old(store.files), store.files, {TracePath(id)}) && StoredBoth(sys, store.files, job)
    ensures r.Ran? ==> TraceRecorded(sys, job, id, JobRun(sys, job, oracle), store.files, r)
    ensures r.Ran? ==> TracePath(id) !in old(store.files)
    ensures r == StoreFailed ==> SameAt(old(store.files), store.files, TracePath(id))
    ensures r.Ran? && Consistent(sys, old(store.files), job) ==> ReplaysFrom(sys, store.files, id)
    ensures fault >= 4 ==>
      (r.Ran? <==> TracePath(id) !in old(store.files)
                   && TempPath(Traces, store.pid, old(store.counter)) !in old(store.files))
  {
    JobPaths(sys, job);
    KeyPaths(Traces, id, Traces, id);
    ghost var files := store.files;
    var trace := RunAndSign(sys, job, id, oracle);
    var end, trail := store.Put(TracePath(id), sys.crypto.toJson(trace), Unique, fault, taken);
    course := RunFollows(sys, id, job, taken, oracle, trail, files, store.files, end);
    assert SameAt(files, store.files, ProgramPath(sys, job));
    assert SameAt(files, store.files, DescriptionPath(sys, job));
    if !end.Stored? {
      return StoreFailed, course;
    }
    JobRunIsValid(sys, job, oracle);
    assert sys.crypto.fromJson(sys.crypto.toJson(trace)) == Some(trace);
    r := Ran(id, trace.footer.output, trace.footer.status);
    if Consistent(sys, files, job) {
      RecordedReplays(sys, job, id, JobRun(sys, job, oracle), store.files, r);
    }
  }

  ghost function Targets(sys: Sys, job: Job, id: string): set<Path>
    requires Compile(sys, job).Program?
  {
    {ProgramPath(sys, job), DescriptionPath(sys, job)} + {TracePath(id)}
  }

  /** Once a program lints: a whole course of one thread of the machine, ending in
      `Done` with the job's run exactly when the result is returned. No other file
      is touched, what is recorded replays, and with nothing failing of itself the
      result is returned exactly when no file is left under the temp names of the
      request's own puts. */
  method ExecuteProgram(
    sys: Sys, job: Job, id: string, store: TraceStore, oracle: Oracle, faults: (nat, nat, nat), ghost taken: set<Path>)
    returns (r: ExecuteResult, ghost course: seq<(Files, Phase)>)
    requires ValidSys(sys) && JobOk(sys, job) && ValidKey(id) && Unheld(taken, store.pid, store.counter)
    modifies store
    ensures r.Ran? || r == StoreFailed
    ensures Follows(
      sys, id, job, taken, course,
      (old(store.files), PutProgram(Look)), (store.files, Final(sys, job, oracle, r)))
    ensures Untouched(old(store.files), store.files, Targets(sys, job, id))
    ensures r.Ran? ==> TraceRecorded(sys, job, id, JobRun(sys, job, oracle), store.files, r)
    ensures r.Ran? ==> StoredBoth(sys, store.files, job) && TracePath(id) !in old(store.files)
    ensures r.Ran? && Consistent(sys, old(store.files), job) ==> ReplaysFrom(sys, store.files, id)
    ensures faults.0 >= 4 && faults.1 >= 4 && faults.2 >= 4 ==>
      (r.Ran? <==> Unobstructed(sys, old(store.files), id, job, store.pid, old(store.counter)))
    ensures r == StoreFailed ==> (TracePath(id) in old(store.files) <==> TracePath(id) in store.files)
  {
    JobPaths(sys, job);
    KeyPaths(Traces, id, Traces, id);
    ghost var files0 := store.files;
    var ok, first := StoreSources(sys, job, id, store, (faults.0, faults.1), taken);
    course := first;
    assert SameAt(files0, store.files, TracePath(id));
    if !ok {
      return StoreFailed, course;
    }
    ghost var files1 := store.files;
    ghost var rest;
    r, rest := RunAndStore(sys, job, id, store, oracle, faults.2, taken);
    UntouchedTwice(files0, files1, store.files, {ProgramPath(sys, job), DescriptionPath(sys, job)}, {TracePath(id)});
    course := FollowsOn(
      sys, id, job, taken, first, rest, (files0, PutProgram(Look)), (files1, Running(Begin(BeginVm(sys, job)))),
      (store.files, Final(sys, job, oracle, r)));
  }

  /** A lint error returns before anything is stored or run; any other request is
      a course of the machine from its start to its end. */
  method Execute(
    sys: Sys, job: Job, id: string, store: TraceStore, oracle: Oracle, faults: (nat, nat, nat), ghost taken: set<Path>)
    returns (r: ExecuteResult, ghost course: seq<(Files, Phase)>)
    requires ValidSys(sys) && ValidEnv(job.env) && job.env.core == sys.core && ValidKey(id)
    requires Unheld(taken, store.pid, store.counter)
    modifies store
    ensures var outcome := Compile(sys, job);
            && (outcome.Lint? ==> r == LintError(outcome.line, outcome.message))
            && (outcome.BrokenPrelude? ==> r == Panicked)
            && (!outcome.Program? ==> course == [] && store.files == old(store.files))
    ensures Compile(sys, job).Program? ==>
      && (r.Ran? || r == StoreFailed)
      && Follows(sys, id, job, taken, course,
                 (old(store.files), PutProgram(Look)), (store.files, Final(sys, job, oracle, r)))
      && Untouched(old(store.files), store.files, Targets(sys, job, id))
    ensures r.Ran? ==>
      TraceRecorded(sys, job, id, JobRun(sys, job, oracle), store.files, r) && TracePath(id) !in old(store.files)
    ensures r.Ran? && Consistent(sys, old(store.files), job) ==> ReplaysFrom(sys, store.files, id)
    ensures Compile(sys, job).Program? && faults.0 >= 4 && faults.1 >= 4 && faults.2 >= 4 ==>
      (r.Ran? <==> Unobstructed(sys, old(store.files), id, job, store.pid, old(store.counter)))
  {
    course := [];
    var outcome := CompileProgram(sys.core.compile, DescriptionOf(sys, job).prelude, job.program);
    match outcome
    case BrokenPrelude => r := Panicked;
    case Lint(line, message) => r := LintError(line, message);
    case Program(_) => r, course := ExecuteProgram(sys, job, id, store, oracle, faults, taken);
  }

  /** How an error at a position of the assembled source is reported. */
  ghost predicate ReportedAt(prelude: string, program: string, pos: nat, e: VmError)
    requires pos <= |prelude + program|
  {
    var offset := Newlines(prelude);
    var inner := ErrorStatus(e, offset);
    && inner.RunError?
    && ErrorStatus(WithLine(LineOf(prelude + program, pos), e), offset) ==
       if pos < |prelude| then inner
       else AtLine(inner, LineOf(program, pos - |prelude|))
  }

  lemma LineInStored(prelude: string, program: string, pos: nat)
    requires EmptyOrEndsInNewline(prelude) && pos <= |prelude + program|
    ensures LineOf(prelude + program, pos) > Newlines(prelude) <==> pos >= |prelude|
    ensures pos >= |prelude| ==> LineOf(prelude + program, pos) == Newlines(prelude) + LineOf(program, pos - |prelude|)
  {
    StoredSource(prelude, program);
    LineMapping(prelude, program, pos);
  }

  lemma LineReported(prelude: string, program: string, pos: nat, e: VmError)
    requires EmptyOrEndsInNewline(prelude) && pos <= |prelude + program|
    ensures ReportedAt(prelude, program, pos, e)
  {
    LineInStored(prelude, program, pos);
    WrappedStatus(LineOf(prelude + program, pos), e, Newlines(prelude));
  }

  /** A run-time error at a position of the stored source is reported at its line
      in the agent's program, or with no line when it is in the prelude. */
  lemma ErrorAtOwnLine(sys: Sys, job: Job, pos: nat, e: VmError)
    requires Builds(sys) && pos <= |SourceOf(sys, job)|
    ensures ReportedAt(DescriptionOf(sys, job).prelude, job.program, pos, e)
  {
    LineReported(DescriptionOf(sys, job).prelude, job.program, pos, e);
  }
}
