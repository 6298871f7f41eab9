/** What a thread of the machine can do on its own, and what threads can do to
    each other's files. */
module Progress {
  import opened Text
  import opened Chains
  import opened Core
  import opened Tracing
  import opened Host
  import opened Run
  import opened Store
  import opened Gateway

  // ---------------------------------------------------------------------
  // One thread's course
  // ---------------------------------------------------------------------

  /** The files and the phase of a thread, step after step, while no other thread
      moves. `taken` are the temp files the others hold. */
  ghost predicate Course(sys: Sys, id: string, job: Job, taken: set<Path>, course: seq<(Files, Phase)>)
  {
    course != [] && Linked(CourseSteps(sys, id, job, taken), course)
  }

  ghost function CourseSteps(
    sys: Sys, id: string, job: Job, taken: set<Path>): ((Files, Phase), (Files, Phase)) -> bool
  {
    (a, b) => CourseStep(sys, id, job, taken, a, b)
  }

  ghost predicate CourseStep(
    sys: Sys, id: string, job: Job, taken: set<Path>, a: (Files, Phase), b: (Files, Phase))
  {
    Compile(sys, job).Program? && ThreadNext(sys, id, a.0, Thread(job, a.1), taken, b.0, b.1)
  }

  // ---------------------------------------------------------------------
  // Its puts
  // ---------------------------------------------------------------------

  /** Which of a thread's three files a put is for. */
  datatype Which = TheProgram | TheDescription | TheTrace(run: RunState)

  ghost predicate Fits(sys: Sys, job: Job, which: Which)
  {
    Compile(sys, job).Program? && (which.TheTrace? ==> Finished(sys.core, which.run))
  }

  ghost function PutTarget(sys: Sys, id: string, job: Job, which: Which): Path
    requires Fits(sys, job, which)
  {
    match which
    case TheProgram => ProgramPath(sys, job)
    case TheDescription => DescriptionPath(sys, job)
    case TheTrace(_) => TracePath(id)
  }

  ghost function Offered(sys: Sys, id: string, job: Job, which: Which): string
    requires Fits(sys, job, which)
  {
    match which
    case TheProgram => SourceOf(sys, job)
    case TheDescription => DescriptionOf(sys, job).text
    case TheTrace(run) => TraceText(sys, job, id, run)
  }

  function ModeOf(which: Which): Mode
  {
    if which.TheTrace? then Unique else Addressed
  }

  /** The thread's phase at a state of the put. */
  ghost function PhaseAt(sys: Sys, job: Job, which: Which, s: PutState): Phase
    requires Fits(sys, job, which)
  {
    match which
    case TheProgram => if s.Busy? then PutProgram(s.put) else AfterProgram(s.end)
    case TheDescription => if s.Busy? then PutDescription(s.put) else AfterDescription(sys, job, s.end)
    case TheTrace(run) => if s.Busy? then PutTrace(run, s.put) else AfterTrace(run, s.end)
  }

  ghost function Phases(sys: Sys, job: Job, which: Which, trail: seq<(Files, PutState)>): (course: seq<(Files, Phase)>)
    requires Fits(sys, job, which)
    ensures |course| == |trail|
    ensures forall i | 0 <= i < |trail| :: course[i] == (trail[i].0, PhaseAt(sys, job, which, trail[i].1))
  {
    if trail == [] then []
    else
      var last := trail[|trail| - 1];
      Phases(sys, job, which, trail[..|trail| - 1]) + [(last.0, PhaseAt(sys, job, which, last.1))]
  }

  lemma TrailStepIsThreads(
    sys: Sys, id: string, job: Job, taken: set<Path>, which: Which, a: (Files, PutState), b: (Files, PutState))
    requires Fits(sys, job, which)
    requires TrailStep(PutTarget(sys, id, job, which), Offered(sys, id, job, which), ModeOf(which), taken, a, b)
    ensures CourseStep(sys, id, job, taken, (a.0, PhaseAt(sys, job, which, a.1)), (b.0, PhaseAt(sys, job, which, b.1)))
  {
  }

  /** A put's trail is a course of the thread that puts. */
  lemma TrailIsCourse(
    sys: Sys, id: string, job: Job, taken: set<Path>, which: Which, trail: seq<(Files, PutState)>)
    requires Fits(sys, job, which) && trail != []
    requires Trail(PutTarget(sys, id, job, which), Offered(sys, id, job, which), ModeOf(which), taken, trail)
    ensures Course(sys, id, job, taken, Phases(sys, job, which, trail))
  {
    var course := Phases(sys, job, which, trail);
    forall i, j | 0 <= i < j < |course| && j == i + 1
      ensures CourseSteps(sys, id, job, taken)(course[i], course[j])
    {
      LinkedAt(
        PutSteps(PutTarget(sys, id, job, which), Offered(sys, id, job, which), ModeOf(which), taken), trail, i);
      TrailStepIsThreads(sys, id, job, taken, which, trail[i], trail[j]);
    }
  }

  // ---------------------------------------------------------------------
  // Its run
  // ---------------------------------------------------------------------

  /** The run the job makes when the downstreams answer as `oracle` does. */
  ghost function JobRun(sys: Sys, job: Job, oracle: Oracle): RunState
    requires JobOk(sys, job)
  {
    Complete(job.env, Begin(BeginVm(sys, job)), oracle)
  }

  lemma JobRunIsValid(sys: Sys, job: Job, oracle: Oracle)
    requires JobOk(sys, job)
    ensures ValidRun(sys, job, JobRun(sys, job, oracle)) && Finished(sys.core, JobRun(sys, job, oracle))
  {
    RunCompletes(job.env, BeginVm(sys, job), oracle);
  }

  lemma {:induction false} RunCourse(
    sys: Sys, id: string, job: Job, taken: set<Path>, files: Files, run: RunState, oracle: Oracle)
    returns (course: seq<(Files, Phase)>)
    requires JobOk(sys, job)
    ensures Course(sys, id, job, taken, course) && course[0] == (files, Running(run))
    ensures course[|course| - 1] == (files, PutTrace(Complete(job.env, run, oracle), Look))
    decreases sys.core.fuel(run.vm)
  {
    if Halted(sys.core, run.vm) {
      course := [(files, Running(run)), (files, PutTrace(run, Look))];
      assert CourseSteps(sys, id, job, taken)(course[0], course[1]);
    } else {
      var next := Advance(job.env, run, oracle);
      AdvanceMetered(job.env, run, oracle);
      var rest := RunCourse(sys, id, job, taken, files, next, oracle);
      var first := [(files, Running(run)), (files, Running(next))];
      assert CourseSteps(sys, id, job, taken)(first[0], first[1]);
      LinkedJoin(CourseSteps(sys, id, job, taken), first, rest);
      course := first + rest[1..];
    }
  }

  // ---------------------------------------------------------------------
  // From start to end
  // ---------------------------------------------------------------------

  /** Where a put's trail starts and ends. */
  ghost predicate Leads(
    target: Path, content: string, mode: Mode, taken: set<Path>, trail: seq<(Files, PutState)>,
    files: Files, files': Files, end: PutEnd)
  {
    && trail != [] && Trail(target, content, mode, taken, trail)
    && trail[0] == (files, Busy(Look)) && trail[|trail| - 1] == (files', Ended(end))
  }

  /** A course with given ends. */
  ghost predicate Follows(
    sys: Sys, id: string, job: Job, taken: set<Path>, course: seq<(Files, Phase)>, a: (Files, Phase), b: (Files, Phase))
  {
    Course(sys, id, job, taken, course) && course[0] == a && course[|course| - 1] == b
  }

  lemma PutFollows(
    sys: Sys, id: string, job: Job, taken: set<Path>, which: Which, trail: seq<(Files, PutState)>,
    files: Files, files': Files, end: PutEnd)
    returns (course: seq<(Files, Phase)>)
    requires Fits(sys, job, which)
    requires Leads(
      PutTarget(sys, id, job, which), Offered(sys, id, job, which), ModeOf(which), taken, trail, files, files', end)
    ensures Follows(
      sys, id, job, taken, course,
      (files, PhaseAt(sys, job, which, Busy(Look))), (files', PhaseAt(sys, job, which, Ended(end))))
  {
    TrailIsCourse(sys, id, job, taken, which, trail);
    course := Phases(sys, job, which, trail);
  }

  lemma FollowsOn(
    sys: Sys, id: string, job: Job, taken: set<Path>, x: seq<(Files, Phase)>, y: seq<(Files, Phase)>,
    a: (Files, Phase), b: (Files, Phase), c: (Files, Phase))
    returns (course: seq<(Files, Phase)>)
    requires Follows(sys, id, job, taken, x, a, b) && Follows(sys, id, job, taken, y, b, c)
    ensures Follows(sys, id, job, taken, course, a, c)
  {
    LinkedJoin(CourseSteps(sys, id, job, taken), x, y);
    course := x + y[1..];
  }

  ghost function AfterSources(sys: Sys, job: Job, ok: bool): Phase
    requires Compile(sys, job).Program?
  {
    if ok then Running(Begin(BeginVm(sys, job))) else Aborted
  }

  lemma SourcesFollow(
    sys: Sys, id: string, job: Job, taken: set<Path>, trails: (seq<(Files, PutState)>, seq<(Files, PutState)>),
    files: Files, between: (Files, PutEnd), files': Files, end: PutEnd)
    returns (course: seq<(Files, Phase)>)
    requires Compile(sys, job).Program?
    requires Leads(ProgramPath(sys, job), SourceOf(sys, job), Addressed, taken, trails.0, files, between.0, between.1)
    requires if between.1.IoError? then files' == between.0
             else Leads(DescriptionPath(sys, job), DescriptionOf(sys, job).text, Addressed, taken, trails.1, between.0, files', end)
    ensures Follows(
      sys, id, job, taken, course, (files, PutProgram(Look)),
      (files', AfterSources(sys, job, !between.1.IoError? && end.Stored?)))
  {
    course := PutFollows(sys, id, job, taken, TheProgram, trails.0, files, between.0, between.1);
    if !between.1.IoError? {
      var rest := PutFollows(sys, id, job, taken, TheDescription, trails.1, between.0, files', end);
      course := FollowsOn(
        sys, id, job, taken, course, rest, (files, PutProgram(Look)), (between.0, PutDescription(Look)),
        (files', AfterDescription(sys, job, end)));
    }
  }

  /** From the run's first step to the end of the trace's put. */
  lemma RunFollows(
    sys: Sys, id: string, job: Job, taken: set<Path>, oracle: Oracle, trail: seq<(Files, PutState)>,
    files: Files, files': Files, end: PutEnd)
    returns (course: seq<(Files, Phase)>)
    requires JobOk(sys, job) && Finished(sys.core, JobRun(sys, job, oracle))
    requires Leads(
      TracePath(id), TraceText(sys, job, id, JobRun(sys, job, oracle)), Unique, taken, trail, files, files', end)
    ensures Follows(
      sys, id, job, taken, course,
      (files, Running(Begin(BeginVm(sys, job)))), (files', AfterTrace(JobRun(sys, job, oracle), end)))
  {
    var run := JobRun(sys, job, oracle);
    course := RunCourse(sys, id, job, taken, files, Begin(BeginVm(sys, job)), oracle);
    var rest := PutFollows(sys, id, job, taken, TheTrace(run), trail, files, files', end);
    course := FollowsOn(
      sys, id, job, taken, course, rest, (files, Running(Begin(BeginVm(sys, job)))), (files, PutTrace(run, Look)),
      (files', AfterTrace(run, end)));
  }

  /** What the two puts find when nothing fails of itself: neither is blocked by a
      temp file left over, and a description already stored is the job's. */
  ghost predicate SourcesClear(
    files: Files, program: Path, description: Path, text: string, pid: nat, n: nat)
  {
    && Clear(files, program, pid, n) && Clear(files, description, pid, Uses(files, program, n))
    && (description in files ==> files[description] == text)
  }

  /** The counter the trace's put starts with. */
  ghost function TraceCounter(sys: Sys, files: Files, job: Job, n: nat): nat
    requires Compile(sys, job).Program?
  {
    Uses(files, DescriptionPath(sys, job), Uses(files, ProgramPath(sys, job), n))
  }

  /** No file is left under the temp names that this request's puts will use, its
      trace id is unused, and a description already stored is its own. */
  ghost predicate Unobstructed(sys: Sys, files: Files, id: string, job: Job, pid: nat, n: nat)
    requires Compile(sys, job).Program?
  {
    && SourcesClear(files, ProgramPath(sys, job), DescriptionPath(sys, job), DescriptionOf(sys, job).text, pid, n)
    && TracePath(id) !in files && TempPath(Traces, pid, TraceCounter(sys, files, job, n)) !in files
  }

  // ---------------------------------------------------------------------
  // A course is a piece of an execution
  // ---------------------------------------------------------------------

  ghost function Last(states: seq<State>): State
    requires states != []
  {
    states[|states| - 1]
  }

  lemma TakenByOthers(st: State, id: string, t: Thread, files: Files)
    ensures Taken(State(files, st.threads[id := t]), id) == Taken(st, id)
  {
    var st' := State(files, st.threads[id := t]);
    forall p ensures p in Taken(st', id) <==> p in Taken(st, id) {
      if p in Taken(st', id) {
        var i :| i in st'.threads && i != id && p in PhaseHolds(st'.threads[i].phase);
        assert i in st.threads && st.threads[i] == st'.threads[i];
      }
      if p in Taken(st, id) {
        var i :| i in st.threads && i != id && p in PhaseHolds(st.threads[i].phase);
        assert i in st'.threads && st'.threads[i] == st.threads[i];
      }
    }
  }

  lemma StepTo(sys: Sys, st: State, id: string, a: (Files, Phase), b: (Files, Phase)) returns (st': State)
    requires id in st.threads && a == (st.files, st.threads[id].phase)
    requires CourseStep(sys, id, st.threads[id].job, Taken(st, id), a, b)
    ensures st' == State(b.0, st.threads[id := Thread(st.threads[id].job, b.1)]) && Next(sys, st, st')
  {
    st' := State(b.0, st.threads[id := Thread(st.threads[id].job, b.1)]);
    assert ThreadStep(sys, st, st', id, b.1);
  }

  /** The state with one thread moved. */
  ghost function Moved(st: State, id: string, to: (Files, Phase)): State
    requires id in st.threads
  {
    State(to.0, st.threads[id := st.threads[id].(phase := to.1)])
  }

  /** The machine takes the first step of a thread's course. */
  lemma CourseStarts(sys: Sys, states: seq<State>, id: string, course: seq<(Files, Phase)>)
    requires Execution(sys, states) && id in Last(states).threads && |course| > 1
    requires Course(sys, id, Last(states).threads[id].job, Taken(Last(states), id), course)
    requires course[0] == (Last(states).files, Last(states).threads[id].phase)
    ensures var st := Moved(Last(states), id, course[1]);
            Execution(sys, states + [st]) && Course(sys, id, st.threads[id].job, Taken(st, id), course[1..])
  {
    var st := Last(states);
    var job := st.threads[id].job;
    LinkedAt(CourseSteps(sys, id, job, Taken(st, id)), course, 0);
    var st' := StepTo(sys, st, id, course[0], course[1]);
    assert st' == Moved(st, id, course[1]);
    LinkedAppend(Steps(sys), states, st');
    TakenByOthers(st, id, Thread(job, course[1].1), course[1].0);
    LinkedTail(CourseSteps(sys, id, job, Taken(st, id)), course);
  }

  lemma MovedTwice(st: State, id: string, a: (Files, Phase), b: (Files, Phase))
    requires id in st.threads
    ensures Moved(Moved(st, id, a), id, b) == Moved(st, id, b)
    ensures Moved(st, id, (st.files, st.threads[id].phase)) == st
  {
    assert st.threads[id := st.threads[id]] == st.threads;
    var t, u := st.threads[id].(phase := a.1), st.threads[id].(phase := b.1);
    assert st.threads[id := t][id := u] == st.threads[id := u];
  }

  /** While the thread moves alone, the machine follows its course. */
  lemma {:induction false} CourseRuns(sys: Sys, states: seq<State>, id: string, course: seq<(Files, Phase)>)
    returns (more: seq<State>)
    requires Execution(sys, states) && id in Last(states).threads
    requires Course(sys, id, Last(states).threads[id].job, Taken(Last(states), id), course)
    requires course[0] == (Last(states).files, Last(states).threads[id].phase)
    ensures Execution(sys, more) && states <= more && Last(more) == Moved(Last(states), id, course[|course| - 1])
    decreases |course|
  {
    var st := Last(states);
    if |course| == 1 {
      MovedTwice(st, id, course[0], course[0]);
      more := states;
    } else {
      CourseStarts(sys, states, id, course);
      var longer := states + [Moved(st, id, course[1])];
      more := CourseRuns(sys, longer, id, course[1..]);
      MovedTwice(st, id, course[1], course[|course| - 1]);
      assert states == longer[..|states|] <= more;
    }
  }

  lemma Spawned(sys: Sys, states: seq<State>, id: string, job: Job) returns (more: seq<State>)
    requires Execution(sys, states) && id !in Last(states).threads && ValidKey(id) && JobOk(sys, job)
    ensures Execution(sys, more) && states <= more
    ensures Last(more) == State(Last(states).files, Last(states).threads[id := Thread(job, PutProgram(Look))])
  {
    var st := State(Last(states).files, Last(states).threads[id := Thread(job, PutProgram(Look))]);
    assert Spawn(sys, Last(states), st, id, job);
    LinkedAppend(Steps(sys), states, st);
    more := states + [st];
  }

  // ---------------------------------------------------------------------
  // A request is a piece of an execution
  // ---------------------------------------------------------------------

  /** Every request performed as a course is a piece of an execution: the thread
      starts, moves alone along its course, and ends as the course does. */
  lemma RequestRuns(
    sys: Sys, states: seq<State>, id: string, job: Job, course: seq<(Files, Phase)>, end: (Files, Phase))
    returns (more: seq<State>)
    requires Execution(sys, states) && id !in Last(states).threads && ValidKey(id) && JobOk(sys, job)
    requires Follows(sys, id, job, Taken(Last(states), id), course, (Last(states).files, PutProgram(Look)), end)
    ensures Execution(sys, more) && states <= more
    ensures Last(more) == State(end.0, Last(states).threads[id := Thread(job, end.1)])
  {
    var st := Last(states);
    var start := Spawned(sys, states, id, job);
    TakenByOthers(st, id, Thread(job, PutProgram(Look)), st.files);
    more := CourseRuns(sys, start, id, course);
    assert st.threads[id := Thread(job, PutProgram(Look))][id := Thread(job, end.1)] == st.threads[id := Thread(job, end.1)];
    assert states == start[..|states|] <= more;
  }

  // ---------------------------------------------------------------------
  // When a stored program can change
  // ---------------------------------------------------------------------

  /** Two jobs whose sources differ and share a program hash. */
  ghost predicate Ambiguous(sys: Sys, a: Job, b: Job)
  {
    JobOk(sys, a) && JobOk(sys, b) && HashOf(sys, a) == HashOf(sys, b) && SourceOf(sys, a) != SourceOf(sys, b)
  }

  lemma NextExtends(sys: Sys, st: State, st': State)
    requires Next(sys, st, st')
    ensures Extends(st.threads, st'.threads)
  {
  }

  lemma ExtendsOn(a: map<string, Thread>, b: map<string, Thread>, c: map<string, Thread>)
    requires Extends(a, b) && Extends(b, c)
    ensures Extends(a, c)
  {
  }

  lemma {:induction false} ThreadsPersist(sys: Sys, states: seq<State>, i: nat, j: nat)
    requires Execution(sys, states) && i <= j < |states|
    ensures Extends(states[i].threads, states[j].threads)
    decreases j
  {
    if i == j {
    } else {
      var k := j - 1;
      ThreadsPersist(sys, states, i, k);
      LinkedAt(Steps(sys), states, k);
      NextExtends(sys, states[k], states[j]);
      ExtendsOn(states[i].threads, states[k].threads, states[j].threads);
    }
  }

  /** A visible program whose content changes has two ambiguous jobs behind it. */
  lemma ChangeNeedsTwo(sys: Sys, states: seq<State>, i: nat, j: nat, h: string)
    requires ValidSys(sys) && Execution(sys, states) && i <= j < |states| && ValidKey(h)
    requires var p := KeyPath(Programs, h);
             p in states[i].files && (p in states[j].files ==> states[j].files[p] != states[i].files[p])
    ensures exists x, y :: x in states[j].threads && y in states[j].threads
                           && Ambiguous(sys, states[j].threads[x].job, states[j].threads[y].job)
                           && HashOf(sys, states[j].threads[x].job) == h
  {
    var st, st', p := states[i], states[j], KeyPath(Programs, h);
    Reachable(sys, states, i);
    Reachable(sys, states, j);
    VisibleFilesPersist(sys, states, i, j, Programs, h);
    ThreadsPersist(sys, states, i, j);
    assert FileOk(sys, st, Programs, h) && FileOk(sys, st', Programs, h);
    var x :| x in st.threads && IsProgramOf(sys, st.threads[x].job, h, st.files[p]);
    var y :| y in st'.threads && IsProgramOf(sys, st'.threads[y].job, h, st'.files[p]);
    assert st'.threads[x].job == st.threads[x].job;
    assert Ambiguous(sys, st'.threads[x].job, st'.threads[y].job);
  }

  /** A thread that has looked for its program and found none names a temp file. */
  lemma NamesTemp(sys: Sys, states: seq<State>, id: string, pid: nat, n: nat) returns (more: seq<State>, tmp: Path)
    requires Execution(sys, states) && id in Last(states).threads && JobOk(sys, Last(states).threads[id].job)
    requires Last(states).threads[id].phase == PutProgram(Look)
    requires ProgramPath(sys, Last(states).threads[id].job) !in Last(states).files
    requires TempPath(Programs, pid, n) !in Taken(Last(states), id)
    ensures Execution(sys, more) && states <= more && IsTemp(tmp) && tmp == TempPath(Programs, pid, n)
    ensures Last(more) == Moved(Last(states), id, (Last(states).files, PutProgram(Named(tmp))))
  {
    var st := Last(states);
    var job, taken := st.threads[id].job, Taken(st, id);
    tmp := TempPath(Programs, pid, n);
    TempPaths(Programs, pid, n, Programs, pid, n);
    var trail := [(st.files, Busy(Look)), (st.files, Busy(Named(tmp)))];
    assert PutSteps(ProgramPath(sys, job), SourceOf(sys, job), Addressed, taken)(trail[0], trail[1]);
    TrailIsCourse(sys, id, job, taken, TheProgram, trail);
    more := CourseRuns(sys, states, id, Phases(sys, job, TheProgram, trail));
  }

  /** A thread that has named its temp file stores its source, whatever is under
      the program's path by now. */
  lemma Stores(sys: Sys, states: seq<State>, id: string, tmp: Path) returns (more: seq<State>)
    requires ValidSys(sys)
    requires Execution(sys, states) && id in Last(states).threads && JobOk(sys, Last(states).threads[id].job)
    requires Last(states).threads[id].phase == PutProgram(Named(tmp)) && IsTemp(tmp) && tmp !in Last(states).files
    ensures Execution(sys, more) && states <= more
    ensures var st, job := Last(states), Last(states).threads[id].job;
            Last(more) == Moved(st, id, (st.files[ProgramPath(sys, job) := SourceOf(sys, job)], PutDescription(Look)))
  {
    var st := Last(states);
    var job, taken := st.threads[id].job, Taken(st, id);
    JobPaths(sys, job);
    var trail := WriteTrail(st.files, tmp, ProgramPath(sys, job), SourceOf(sys, job), Addressed, taken);
    TrailIsCourse(sys, id, job, taken, TheProgram, trail);
    more := CourseRuns(sys, states, id, Phases(sys, job, TheProgram, trail));
  }

  const X := "a"
  const Y := "b"

  lemma HeldByOne(st: State, id: string, other: string, p: Path)
    requires p in Taken(st, id) && st.threads.Keys == {id, other}
    ensures other in st.threads && p in PhaseHolds(st.threads[other].phase)
  {
  }

  /** Two requests of one process on an empty store that have both looked and
      found no program. */
  lemma BothLook(sys: Sys, a: Job, b: Job, pid: nat) returns (states: seq<State>, tmp: Path, tmp': Path)
    requires JobOk(sys, a) && JobOk(sys, b)
    ensures Execution(sys, states) && IsTemp(tmp) && IsTemp(tmp')
    ensures Last(states)
         == State(map[], map[X := Thread(a, PutProgram(Named(tmp))), Y := Thread(b, PutProgram(Named(tmp')))])
  {
    states := [State(map[], map[])];
    states := Spawned(sys, states, X, a);
    states := Spawned(sys, states, Y, b);
    assert Last(states) == State(map[], map[X := Thread(a, PutProgram(Look)), Y := Thread(b, PutProgram(Look))]);
    if TempPath(Programs, pid, 0) in Taken(Last(states), X) {
      HeldByOne(Last(states), X, Y, TempPath(Programs, pid, 0));
    }
    states, tmp := NamesTemp(sys, states, X, pid, 0);
    TempPaths(Programs, pid, 0, Programs, pid, 1);
    if TempPath(Programs, pid, 1) in Taken(Last(states), Y) {
      HeldByOne(Last(states), Y, X, TempPath(Programs, pid, 1));
    }
    states, tmp' := NamesTemp(sys, states, Y, pid, 1);
  }

  /** One of the two stores its program, whatever is under the path. */
  lemma OneStores(sys: Sys, states: seq<State>, id: string, tmp: Path, job: Job, path: Path, s: string)
    returns (more: seq<State>)
    requires ValidSys(sys) && JobOk(sys, job) && path == ProgramPath(sys, job) && s == SourceOf(sys, job)
    requires Execution(sys, states) && id in Last(states).threads && IsTemp(tmp)
    requires Last(states).files.Keys <= {path} && Last(states).threads[id] == Thread(job, PutProgram(Named(tmp)))
    ensures Execution(sys, more) && states <= more
    ensures Last(more) == State(map[path := s], Last(states).threads[id := Thread(job, PutDescription(Look))])
  {
    JobPaths(sys, job);
    more := Stores(sys, states, id, tmp);
    var files := Last(states).files;
    assert files[path := s] == map[path := s];
  }

  /** Two requests that share a program's path and both look before either
      renames: the program stored first is replaced by the other. */
  lemma Race(sys: Sys, a: Job, b: Job, path: Path, s: string, s': string, pid: nat) returns (states: seq<State>, i: nat)
    requires ValidSys(sys) && JobOk(sys, a) && JobOk(sys, b)
    requires path == ProgramPath(sys, a) == ProgramPath(sys, b) && s == SourceOf(sys, a) && s' == SourceOf(sys, b)
    ensures Execution(sys, states) && i < |states|
    ensures states[i].files == map[path := s] && Last(states).files == map[path := s']
    ensures Last(states).threads == map[X := Thread(a, PutDescription(Look)), Y := Thread(b, PutDescription(Look))]
  {
    var named, tmp, tmp' := BothLook(sys, a, b, pid);
    var first := OneStores(sys, named, X, tmp, a, path, s);
    states := OneStores(sys, first, Y, tmp', b, path, s');
    i := |first| - 1;
    assert states[i] == first[i];
  }

  /** Some execution of jobs from `jobs` changes a visible program. */
  ghost predicate ProgramChanges(sys: Sys, jobs: Job -> bool)
  {
    exists states: seq<State>, i: nat, j: nat, h: string :: Shows(sys, states, i, j, h, jobs)
  }

  ghost predicate Shows(sys: Sys, states: seq<State>, i: nat, j: nat, h: string, jobs: Job -> bool)
  {
    i <= j < |states| && Execution(sys, states) && ValidKey(h) && Changes(states[i], states[j], h, jobs)
  }

  ghost predicate Changes(st: State, st': State, h: string, jobs: Job -> bool)
  {
    var p := KeyPath(Programs, h);
    && p in st.files && (p in st'.files ==> st'.files[p] != st.files[p])
    && forall id | id in st'.threads :: jobs(st'.threads[id].job)
  }

  lemma AmbiguousPair(sys: Sys, states: seq<State>, i: nat, j: nat, h: string, jobs: Job -> bool)
    returns (a: Job, b: Job)
    requires ValidSys(sys) && Execution(sys, states) && i <= j < |states| && ValidKey(h)
    requires Changes(states[i], states[j], h, jobs)
    ensures jobs(a) && jobs(b) && Ambiguous(sys, a, b)
  {
    ChangeNeedsTwo(sys, states, i, j, h);
    var x, y :| x in states[j].threads && y in states[j].threads
      && Ambiguous(sys, states[j].threads[x].job, states[j].threads[y].job);
    a, b := states[j].threads[x].job, states[j].threads[y].job;
  }

  lemma ChangesBetween(st: State, st': State, h: string, s: string, s': string, a: Job, b: Job, jobs: Job -> bool)
    requires st.files == map[KeyPath(Programs, h) := s] && st'.files == map[KeyPath(Programs, h) := s'] && s != s'
    requires st'.threads == map[X := Thread(a, PutDescription(Look)), Y := Thread(b, PutDescription(Look))]
    requires jobs(a) && jobs(b)
    ensures Changes(st, st', h, jobs)
  {
  }

  lemma RaceChanges(sys: Sys, a: Job, b: Job, jobs: Job -> bool)
    requires ValidSys(sys) && Ambiguous(sys, a, b) && jobs(a) && jobs(b)
    ensures ProgramChanges(sys, jobs)
  {
    JobPaths(sys, a);
    var h, s, s' := HashOf(sys, a), SourceOf(sys, a), SourceOf(sys, b);
    var states, i := Race(sys, a, b, KeyPath(Programs, h), s, s', 0);
    var j := |states| - 1;
    ChangesBetween(states[i], states[j], h, s, s', a, b, jobs);
    assert Shows(sys, states, i, j, h, jobs);
  }

  /** The exact condition: requests drawn from `jobs` can change a stored program
      if and only if two of them share a program hash and differ in source. */
  lemma ProgramChangesExactly(sys: Sys, jobs: Job -> bool)
    requires ValidSys(sys)
    ensures ProgramChanges(sys, jobs) <==> exists a, b :: jobs(a) && jobs(b) && Ambiguous(sys, a, b)
  {
    if ProgramChanges(sys, jobs) {
      var states: seq<State>, i: nat, j: nat, h: string :| Shows(sys, states, i, j, h, jobs);
      var a, b := AmbiguousPair(sys, states, i, j, h, jobs);
      assert jobs(a) && jobs(b) && Ambiguous(sys, a, b);
    }
    if a, b :| jobs(a) && jobs(b) && Ambiguous(sys, a, b) {
      RaceChanges(sys, a, b, jobs);
    }
  }
}
