/** When a request that meets no fault finishes, and when it does not. */
module Finishing {
  import opened Text
  import opened Chains
  import opened Core
  import opened Tracing
  import opened Host
  import opened Run
  import opened Store
  import opened Gateway
  import opened Progress

  // ---------------------------------------------------------------------
  // Steps without a fault
  // ---------------------------------------------------------------------

  /** A thread that moves alone, in a process whose temp counter is `next`. */
  datatype Moment = Moment(files: Files, phase: Phase, next: nat)

  /** A put's step in which no file operation fails of itself. */
  ghost predicate PutMoves(
    sys: Sys, id: string, job: Job, taken: set<Path>, pid: nat, which: Which, put: Put, next: PutState,
    a: Moment, b: Moment)
  {
    && Fits(sys, job, which)
    && a.phase == PhaseAt(sys, job, which, Busy(put)) && b.phase == PhaseAt(sys, job, which, next)
    && PutNext(
         a.files, put, PutTarget(sys, id, job, which), Offered(sys, id, job, which), ModeOf(which), taken, b.files, next)
    && Proceeds(a.files, put, PutTarget(sys, id, job, which), pid, a.next, b.files, next, b.next)
  }

  ghost predicate RunMoves(sys: Sys, id: string, job: Job, taken: set<Path>, a: Moment, b: Moment)
  {
    && a.phase.Running? && b.files == a.files && b.next == a.next
    && CourseStep(sys, id, job, taken, (a.files, a.phase), (b.files, b.phase))
  }

  ghost predicate Moves(sys: Sys, id: string, job: Job, taken: set<Path>, pid: nat, a: Moment, b: Moment)
  {
    || RunMoves(sys, id, job, taken, a, b)
    || exists which, put, next :: PutMoves(sys, id, job, taken, pid, which, put, next, a, b)
  }

  ghost function MoveSteps(sys: Sys, id: string, job: Job, taken: set<Path>, pid: nat): (Moment, Moment) -> bool
  {
    (a, b) => Moves(sys, id, job, taken, pid, a, b)
  }

  // ---------------------------------------------------------------------
  // A moment's fate
  // ---------------------------------------------------------------------

  /** From before the trace's put. */
  ghost predicate TraceClear(id: string, pid: nat, files: Files, n: nat)
  {
    TracePath(id) !in files && TempPath(Traces, pid, n) !in files
  }

  /** From before the description's put. */
  ghost predicate DescriptionClear(sys: Sys, id: string, job: Job, pid: nat, files: Files, n: nat)
  {
    var d := DescriptionPath(sys, job);
    && (d in files ==> files[d] == DescriptionOf(sys, job).text)
    && Clear(files, d, pid, n) && TraceClear(id, pid, files, Uses(files, d, n))
  }

  /** A put past its look goes through exactly when it holds its temp file or the
      name is free. */
  predicate Through(files: Files, put: Put)
  {
    put.Named? ==> put.tmp !in files
  }

  /** Whether the thread is bound to finish. */
  ghost predicate Fate(sys: Sys, id: string, job: Job, pid: nat, m: Moment)
    requires Compile(sys, job).Program?
  {
    match m.phase
    case PutProgram(put) =>
      if put.Look? then
        var p := ProgramPath(sys, job);
        Clear(m.files, p, pid, m.next) && DescriptionClear(sys, id, job, pid, m.files, Uses(m.files, p, m.next))
      else Through(m.files, put) && DescriptionClear(sys, id, job, pid, m.files, m.next)
    case PutDescription(put) =>
      if put.Look? then DescriptionClear(sys, id, job, pid, m.files, m.next)
      else Through(m.files, put) && TraceClear(id, pid, m.files, m.next)
    case Running(_) => TraceClear(id, pid, m.files, m.next)
    case PutTrace(_, put) => if put.Look? then TraceClear(id, pid, m.files, m.next) else Through(m.files, put)
    case Done(_) => true
    case _ => false
  }

  /** A thread's temp file is beside the file it is for. */
  ghost predicate InPlace(sys: Sys, id: string, job: Job, phase: Phase)
    requires Compile(sys, job).Program?
  {
    match phase
    case PutProgram(put) => Beside(put, ProgramPath(sys, job))
    case PutDescription(put) => Beside(put, DescriptionPath(sys, job))
    case PutTrace(_, put) => Beside(put, TracePath(id))
    case _ => true
  }

  lemma SameTraceClear(id: string, pid: nat, files: Files, files': Files, n: nat)
    requires forall p: Path | p.dir == Traces :: SameAt(files, files', p)
    ensures TraceClear(id, pid, files, n) <==> TraceClear(id, pid, files', n)
  {
    assert SameAt(files, files', TracePath(id)) && SameAt(files, files', TempPath(Traces, pid, n));
  }

  lemma SameDescriptionClear(sys: Sys, id: string, job: Job, pid: nat, files: Files, files': Files, n: nat)
    requires forall p: Path | p.dir != Programs :: SameAt(files, files', p)
    ensures DescriptionClear(sys, id, job, pid, files, n) <==> DescriptionClear(sys, id, job, pid, files', n)
  {
    var d := DescriptionPath(sys, job);
    assert SameAt(files, files', d) && SameAt(files, files', TempPath(Descriptions, pid, n));
    SameTraceClear(id, pid, files, files', Uses(files, d, n));
  }

  /** A put's step settles its own part of the fate. */
  lemma PutFate(
    files: Files, put: Put, target: Path, content: string, mode: Mode, taken: set<Path>, pid: nat, n: nat,
    files': Files, next: PutState, n': nat)
    requires PutNext(files, put, target, content, mode, taken, files', next)
    requires Proceeds(files, put, target, pid, n, files', next, n')
    ensures put.Look? && next.Busy? ==>
      target !in files && files' == files && n' == n + 1 && next == Busy(Named(TempPath(target.dir, pid, n)))
    ensures put.Look? && next.Ended? ==>
      target in files && files' == files && n' == n
      && next.end == if mode.Addressed? && files[target] == content then Stored else Conflict
    ensures !put.Look? ==> n' == n && (next.Busy? ==> next.put.Open?)
    ensures !put.Look? && next.Ended? ==> (next.end == Stored <==> Through(files, put)) && next.end != Conflict
    ensures !put.Look? && next.Busy? ==> Through(files, put)
  {
  }

  lemma ProgramFate(
    sys: Sys, id: string, job: Job, taken: set<Path>, pid: nat, put: Put, next: PutState, a: Moment, b: Moment)
    requires JobOk(sys, job) && PutMoves(sys, id, job, taken, pid, TheProgram, put, next, a, b)
    requires InPlace(sys, id, job, a.phase)
    ensures InPlace(sys, id, job, b.phase) && (Fate(sys, id, job, pid, a) <==> Fate(sys, id, job, pid, b))
  {
    var p, s := ProgramPath(sys, job), SourceOf(sys, job);
    OtherDirs(a.files, put, p, s, Addressed, taken, b.files, next);
    PutFate(a.files, put, p, s, Addressed, taken, pid, a.next, b.files, next, b.next);
    SameDescriptionClear(sys, id, job, pid, a.files, b.files, b.next);
  }

  lemma DescriptionFate(
    sys: Sys, id: string, job: Job, taken: set<Path>, pid: nat, put: Put, next: PutState, a: Moment, b: Moment)
    requires JobOk(sys, job) && PutMoves(sys, id, job, taken, pid, TheDescription, put, next, a, b)
    requires InPlace(sys, id, job, a.phase)
    ensures InPlace(sys, id, job, b.phase) && (Fate(sys, id, job, pid, a) <==> Fate(sys, id, job, pid, b))
  {
    var d, s := DescriptionPath(sys, job), DescriptionOf(sys, job).text;
    OtherDirs(a.files, put, d, s, Addressed, taken, b.files, next);
    PutFate(a.files, put, d, s, Addressed, taken, pid, a.next, b.files, next, b.next);
    SameTraceClear(id, pid, a.files, b.files, b.next);
  }

  lemma TraceFate(
    sys: Sys, id: string, job: Job, taken: set<Path>, pid: nat, run: RunState, put: Put, next: PutState,
    a: Moment, b: Moment)
    requires JobOk(sys, job) && PutMoves(sys, id, job, taken, pid, TheTrace(run), put, next, a, b)
    requires InPlace(sys, id, job, a.phase)
    ensures InPlace(sys, id, job, b.phase) && (Fate(sys, id, job, pid, a) <==> Fate(sys, id, job, pid, b))
  {
    var t, s := TracePath(id), TraceText(sys, job, id, run);
    OtherDirs(a.files, put, t, s, Unique, taken, b.files, next);
    PutFate(a.files, put, t, s, Unique, taken, pid, a.next, b.files, next, b.next);
  }

  /** No step without a fault changes a thread's fate. */
  lemma FateKept(sys: Sys, id: string, job: Job, taken: set<Path>, pid: nat, a: Moment, b: Moment)
    requires JobOk(sys, job) && InPlace(sys, id, job, a.phase) && Moves(sys, id, job, taken, pid, a, b)
    ensures InPlace(sys, id, job, b.phase) && (Fate(sys, id, job, pid, a) <==> Fate(sys, id, job, pid, b))
  {
    if RunMoves(sys, id, job, taken, a, b) {
      assert b.phase.Running? || (b.phase.PutTrace? && b.phase.put.Look?);
    } else {
      var which, put, next :| PutMoves(sys, id, job, taken, pid, which, put, next, a, b);
      match which
      case TheProgram => ProgramFate(sys, id, job, taken, pid, put, next, a, b);
      case TheDescription => DescriptionFate(sys, id, job, taken, pid, put, next, a, b);
      case TheTrace(run) => TraceFate(sys, id, job, taken, pid, run, put, next, a, b);
    }
  }

  lemma {:induction false} FateAlong(
    sys: Sys, id: string, job: Job, taken: set<Path>, pid: nat, chain: seq<Moment>, k: nat)
    requires JobOk(sys, job) && k < |chain| && Linked(MoveSteps(sys, id, job, taken, pid), chain)
    requires InPlace(sys, id, job, chain[0].phase)
    ensures InPlace(sys, id, job, chain[k].phase)
    ensures Fate(sys, id, job, pid, chain[0]) <==> Fate(sys, id, job, pid, chain[k])
  {
    if k == 0 {
    } else {
      FateAlong(sys, id, job, taken, pid, chain, k - 1);
      LinkedAt(MoveSteps(sys, id, job, taken, pid), chain, k - 1);
      FateKept(sys, id, job, taken, pid, chain[k - 1], chain[k]);
    }
  }

  /** The exact condition: of all the ways a request can run alone with no file
      operation failing of itself, whatever its downstreams answer, those that end
      end in `Done` if nothing obstructs it, and are all aborted otherwise. */
  lemma FinishesExactly(
    sys: Sys, id: string, job: Job, taken: set<Path>, pid: nat, n: nat, files: Files, chain: seq<Moment>)
    requires JobOk(sys, job) && chain != [] && Linked(MoveSteps(sys, id, job, taken, pid), chain)
    requires chain[0] == Moment(files, PutProgram(Look), n)
    requires chain[|chain| - 1].phase.Done? || chain[|chain| - 1].phase.Aborted?
    ensures chain[|chain| - 1].phase.Done? <==> Unobstructed(sys, files, id, job, pid, n)
  {
    FateAlong(sys, id, job, taken, pid, chain, |chain| - 1);
  }

  // ---------------------------------------------------------------------
  // Such a run exists
  // ---------------------------------------------------------------------

  /** Steps without a fault from one moment to another. */
  ghost predicate Passes(
    sys: Sys, id: string, job: Job, taken: set<Path>, pid: nat, chain: seq<Moment>, a: Moment, b: Moment)
  {
    chain != [] && Linked(MoveSteps(sys, id, job, taken, pid), chain) && chain[0] == a && chain[|chain| - 1] == b
  }

  lemma PassesOn(
    sys: Sys, id: string, job: Job, taken: set<Path>, pid: nat, x: seq<Moment>, y: seq<Moment>,
    a: Moment, b: Moment, c: Moment)
    returns (chain: seq<Moment>)
    requires Passes(sys, id, job, taken, pid, x, a, b) && Passes(sys, id, job, taken, pid, y, b, c)
    ensures Passes(sys, id, job, taken, pid, chain, a, c)
  {
    LinkedJoin(MoveSteps(sys, id, job, taken, pid), x, y);
    chain := x + y[1..];
  }

  /** One more step of a put. */
  lemma PutOn(
    sys: Sys, id: string, job: Job, taken: set<Path>, pid: nat, chain: seq<Moment>, which: Which, put: Put,
    next: PutState, a: Moment, b: Moment, c: Moment)
    returns (more: seq<Moment>)
    requires Passes(sys, id, job, taken, pid, chain, a, b)
    requires PutMoves(sys, id, job, taken, pid, which, put, next, b, c)
    ensures Passes(sys, id, job, taken, pid, more, a, c)
  {
    LinkedAppend(MoveSteps(sys, id, job, taken, pid), chain, c);
    more := chain + [c];
  }

  ghost function At(sys: Sys, job: Job, which: Which, files: Files, s: PutState, n: nat): Moment
    requires Fits(sys, job, which)
  {
    Moment(files, PhaseAt(sys, job, which, s), n)
  }

  /** Looking, and naming the temp file. */
  lemma NameChain(sys: Sys, id: string, job: Job, taken: set<Path>, pid: nat, which: Which, files: Files, n: nat)
    returns (chain: seq<Moment>)
    requires Fits(sys, job, which)
    requires var target := PutTarget(sys, id, job, which);
             target !in files && TempPath(target.dir, pid, n) !in taken
    ensures var tmp := TempPath(PutTarget(sys, id, job, which).dir, pid, n);
            Passes(
              sys, id, job, taken, pid, chain, At(sys, job, which, files, Busy(Look), n),
              At(sys, job, which, files, Busy(Named(tmp)), n + 1))
  {
    var start := At(sys, job, which, files, Busy(Look), n);
    var tmp := TempPath(PutTarget(sys, id, job, which).dir, pid, n);
    var named := At(sys, job, which, files, Busy(Named(tmp)), n + 1);
    assert PutMoves(sys, id, job, taken, pid, which, Look, Busy(Named(tmp)), start, named);
    chain := PutOn(sys, id, job, taken, pid, [start], which, Look, Busy(Named(tmp)), start, start, named);
  }

  /** Creating the temp file, whose name is free. */
  lemma CreateChain(
    sys: Sys, id: string, job: Job, taken: set<Path>, pid: nat, which: Which, files: Files, n: nat)
    returns (chain: seq<Moment>)
    requires Fits(sys, job, which)
    requires var target := PutTarget(sys, id, job, which);
             target !in files && TempPath(target.dir, pid, n) !in taken && TempPath(target.dir, pid, n) !in files
    ensures var tmp := TempPath(PutTarget(sys, id, job, which).dir, pid, n);
            Passes(
              sys, id, job, taken, pid, chain, At(sys, job, which, files, Busy(Look), n),
              At(sys, job, which, files[tmp := ""], Busy(Open(tmp, 0)), n + 1))
  {
    var tmp := TempPath(PutTarget(sys, id, job, which).dir, pid, n);
    var start, named := At(sys, job, which, files, Busy(Look), n), At(sys, job, which, files, Busy(Named(tmp)), n + 1);
    var created := At(sys, job, which, files[tmp := ""], Busy(Open(tmp, 0)), n + 1);
    chain := NameChain(sys, id, job, taken, pid, which, files, n);
    assert PutMoves(sys, id, job, taken, pid, which, Named(tmp), Busy(Open(tmp, 0)), named, created);
    chain := PutOn(sys, id, job, taken, pid, chain, which, Named(tmp), Busy(Open(tmp, 0)), start, named, created);
  }

  /** Writing the created file and renaming it. */
  lemma RenameChain(
    sys: Sys, id: string, job: Job, taken: set<Path>, pid: nat, which: Which, files: Files, tmp: Path, n: nat)
    returns (chain: seq<Moment>)
    requires Fits(sys, job, which) && tmp !in files && tmp != PutTarget(sys, id, job, which)
    ensures var target, content := PutTarget(sys, id, job, which), Offered(sys, id, job, which);
            Passes(
              sys, id, job, taken, pid, chain, At(sys, job, which, files[tmp := ""], Busy(Open(tmp, 0)), n),
              At(sys, job, which, files[target := content], Ended(Stored), n))
  {
    var target, content := PutTarget(sys, id, job, which), Offered(sys, id, job, which);
    var m := |content|;
    var created := At(sys, job, which, files[tmp := ""], Busy(Open(tmp, 0)), n);
    var written := At(sys, job, which, files[tmp := content], Busy(Open(tmp, m)), n);
    var ended := At(sys, job, which, files[target := content], Ended(Stored), n);
    chain := [created];
    WriteAndRename(files, tmp, target, content, ModeOf(which), taken);
    if m == 0 {
      assert content == "";
    } else {
      assert PutMoves(sys, id, job, taken, pid, which, Open(tmp, 0), Busy(Open(tmp, m)), created, written);
      chain := PutOn(
        sys, id, job, taken, pid, chain, which, Open(tmp, 0), Busy(Open(tmp, m)), created, created, written);
    }
    assert PutMoves(sys, id, job, taken, pid, which, Open(tmp, m), Ended(Stored), written, ended);
    chain := PutOn(sys, id, job, taken, pid, chain, which, Open(tmp, m), Ended(Stored), created, written, ended);
  }

  /** A whole put ends as `PutOutcome` says. */
  lemma PutChain(sys: Sys, id: string, job: Job, taken: set<Path>, pid: nat, which: Which, files: Files, n: nat)
    returns (chain: seq<Moment>)
    requires Fits(sys, job, which) && !IsTemp(PutTarget(sys, id, job, which)) && Unheld(taken, pid, n)
    ensures var target := PutTarget(sys, id, job, which);
            var (files', end) := PutOutcome(files, target, Offered(sys, id, job, which), ModeOf(which), pid, n);
            Passes(
              sys, id, job, taken, pid, chain, At(sys, job, which, files, Busy(Look), n),
              At(sys, job, which, files', Ended(end), Uses(files, target, n)))
  {
    var target, content := PutTarget(sys, id, job, which), Offered(sys, id, job, which);
    var (files', end) := PutOutcome(files, target, content, ModeOf(which), pid, n);
    var tmp := TempPath(target.dir, pid, n);
    TempPaths(target.dir, pid, n, target.dir, pid, n);
    var start := At(sys, job, which, files, Busy(Look), n);
    var ended := At(sys, job, which, files', Ended(end), Uses(files, target, n));
    if target in files {
      assert PutMoves(sys, id, job, taken, pid, which, Look, Ended(end), start, ended);
      chain := PutOn(sys, id, job, taken, pid, [start], which, Look, Ended(end), start, start, ended);
    } else if tmp in files {
      var named := At(sys, job, which, files, Busy(Named(tmp)), n + 1);
      chain := NameChain(sys, id, job, taken, pid, which, files, n);
      assert PutMoves(sys, id, job, taken, pid, which, Named(tmp), Ended(IoError), named, ended);
      chain := PutOn(sys, id, job, taken, pid, chain, which, Named(tmp), Ended(IoError), start, named, ended);
    } else {
      var created := At(sys, job, which, files[tmp := ""], Busy(Open(tmp, 0)), n + 1);
      chain := CreateChain(sys, id, job, taken, pid, which, files, n);
      var rest := RenameChain(sys, id, job, taken, pid, which, files, tmp, n + 1);
      chain := PassesOn(sys, id, job, taken, pid, chain, rest, start, created, ended);
    }
  }

  lemma {:induction false} RunChain(
    sys: Sys, id: string, job: Job, taken: set<Path>, pid: nat, files: Files, n: nat, run: RunState, oracle: Oracle)
    returns (chain: seq<Moment>)
    requires JobOk(sys, job)
    ensures Passes(
      sys, id, job, taken, pid, chain, Moment(files, Running(run), n),
      Moment(files, PutTrace(Complete(job.env, run, oracle), Look), n))
    decreases sys.core.fuel(run.vm)
  {
    var start := Moment(files, Running(run), n);
    if Halted(sys.core, run.vm) {
      var end := Moment(files, PutTrace(run, Look), n);
      assert RunMoves(sys, id, job, taken, start, end);
      LinkedAppend(MoveSteps(sys, id, job, taken, pid), [start], end);
      chain := [start] + [end];
    } else {
      var next := Advance(job.env, run, oracle);
      AdvanceMetered(job.env, run, oracle);
      var rest := RunChain(sys, id, job, taken, pid, files, n, next, oracle);
      var second := Moment(files, Running(next), n);
      assert RunMoves(sys, id, job, taken, start, second);
      LinkedAppend(MoveSteps(sys, id, job, taken, pid), [start], second);
      chain := PassesOn(
        sys, id, job, taken, pid, [start] + [second], rest, start, second,
        Moment(files, PutTrace(Complete(job.env, run, oracle), Look), n));
    }
  }

  /** Both sources, when neither put is blocked. */
  lemma SourcesChain(sys: Sys, id: string, job: Job, taken: set<Path>, pid: nat, files: Files, n: nat)
    returns (chain: seq<Moment>, files': Files, n': nat)
    requires ValidSys(sys) && JobOk(sys, job) && Unheld(taken, pid, n)
    ensures var clear := SourcesClear(
              files, ProgramPath(sys, job), DescriptionPath(sys, job), DescriptionOf(sys, job).text, pid, n);
            && Passes(
                 sys, id, job, taken, pid, chain, Moment(files, PutProgram(Look), n),
                 Moment(files', AfterSources(sys, job, clear), n'))
            && (clear ==> n' == TraceCounter(sys, files, job, n) && StoredBoth(sys, files', job))
    ensures n' >= n && forall p: Path | p.dir == Traces :: SameAt(files, files', p)
    ensures StoredBoth(sys, files, job) ==> files' == files
  {
    JobPaths(sys, job);
    var program, description := ProgramPath(sys, job), DescriptionPath(sys, job);
    var (files1, end1) := PutOutcome(files, program, SourceOf(sys, job), Addressed, pid, n);
    var n1 := Uses(files, program, n);
    var start := Moment(files, PutProgram(Look), n);
    chain := PutChain(sys, id, job, taken, pid, TheProgram, files, n);
    files', n' := files1, n1;
    OutcomeElsewhere(files, program, SourceOf(sys, job), Addressed, pid, n);
    if !end1.IoError? {
      assert SameAt(files, files1, description) && SameAt(files, files1, TempPath(Descriptions, pid, n1));
      var (files2, end2) := PutOutcome(files1, description, DescriptionOf(sys, job).text, Addressed, pid, n1);
      OutcomeElsewhere(files1, description, DescriptionOf(sys, job).text, Addressed, pid, n1);
      var rest := PutChain(sys, id, job, taken, pid, TheDescription, files1, n1);
      files', n' := files2, Uses(files1, description, n1);
      chain := PassesOn(
        sys, id, job, taken, pid, chain, rest, start, Moment(files1, PutDescription(Look), n1),
        Moment(files', AfterDescription(sys, job, end2), n'));
    }
  }

  // ---------------------------------------------------------------------
  // In the machine
  // ---------------------------------------------------------------------

  ghost function Shadow(chain: seq<Moment>): (course: seq<(Files, Phase)>)
    ensures |course| == |chain| && forall i | 0 <= i < |chain| :: course[i] == (chain[i].files, chain[i].phase)
  {
    if chain == [] then []
    else Shadow(chain[..|chain| - 1]) + [(chain[|chain| - 1].files, chain[|chain| - 1].phase)]
  }

  lemma MovesAreSteps(sys: Sys, id: string, job: Job, taken: set<Path>, pid: nat, a: Moment, b: Moment)
    requires Moves(sys, id, job, taken, pid, a, b)
    ensures CourseStep(sys, id, job, taken, (a.files, a.phase), (b.files, b.phase))
  {
    if !RunMoves(sys, id, job, taken, a, b) {
      var which, put, next :| PutMoves(sys, id, job, taken, pid, which, put, next, a, b);
      TrailStepIsThreads(sys, id, job, taken, which, (a.files, Busy(put)), (b.files, next));
    }
  }

  lemma ShadowFollows(
    sys: Sys, id: string, job: Job, taken: set<Path>, pid: nat, chain: seq<Moment>, a: Moment, b: Moment)
    requires Passes(sys, id, job, taken, pid, chain, a, b)
    ensures Follows(sys, id, job, taken, Shadow(chain), (a.files, a.phase), (b.files, b.phase))
  {
    var course := Shadow(chain);
    forall i, j | 0 <= i < j < |course| && j == i + 1
      ensures CourseSteps(sys, id, job, taken)(course[i], course[j])
    {
      LinkedAt(MoveSteps(sys, id, job, taken, pid), chain, i);
      MovesAreSteps(sys, id, job, taken, pid, chain[i], chain[j]);
    }
  }

  /** The machine follows such steps of one thread. */
  lemma ChainRuns(
    sys: Sys, states: seq<State>, id: string, pid: nat, chain: seq<Moment>, a: Moment, b: Moment)
    returns (more: seq<State>)
    requires Execution(sys, states) && id in Last(states).threads
    requires Passes(sys, id, Last(states).threads[id].job, Taken(Last(states), id), pid, chain, a, b)
    requires a.files == Last(states).files && a.phase == Last(states).threads[id].phase
    ensures Execution(sys, more) && states <= more && Last(more) == Moved(Last(states), id, (b.files, b.phase))
  {
    var job := Last(states).threads[id].job;
    ShadowFollows(sys, id, job, Taken(Last(states), id), pid, chain, a, b);
    more := CourseRuns(sys, states, id, Shadow(chain));
  }

  /** A new request whose sources are not blocked comes to the put of its trace,
      with its run, and so every tool call, behind it. */
  lemma ComesToTrace(sys: Sys, id: string, job: Job, taken: set<Path>, pid: nat, files: Files, n: nat, oracle: Oracle)
    returns (chain: seq<Moment>, files': Files)
    requires ValidSys(sys) && JobOk(sys, job) && Unheld(taken, pid, n)
    requires SourcesClear(
      files, ProgramPath(sys, job), DescriptionPath(sys, job), DescriptionOf(sys, job).text, pid, n)
    ensures Passes(
      sys, id, job, taken, pid, chain, Moment(files, PutProgram(Look), n),
      Moment(files', PutTrace(JobRun(sys, job, oracle), Look), TraceCounter(sys, files, job, n)))
    ensures StoredBoth(sys, files', job) && forall p: Path | p.dir == Traces :: SameAt(files, files', p)
    ensures StoredBoth(sys, files, job) ==> files' == files
  {
    var n';
    chain, files', n' := SourcesChain(sys, id, job, taken, pid, files, n);
    var begin := Begin(BeginVm(sys, job));
    var rest := RunChain(sys, id, job, taken, pid, files', n', begin, oracle);
    chain := PassesOn(
      sys, id, job, taken, pid, chain, rest, Moment(files, PutProgram(Look), n), Moment(files', Running(begin), n'),
      Moment(files', PutTrace(JobRun(sys, job, oracle), Look), n'));
  }

  /** From there to the end. */
  lemma PutsTrace(sys: Sys, id: string, job: Job, taken: set<Path>, pid: nat, files: Files, n: nat, oracle: Oracle)
    returns (chain: seq<Moment>, end: Moment)
    requires ValidSys(sys) && JobOk(sys, job) && ValidKey(id) && Unheld(taken, pid, n)
    ensures Passes(
      sys, id, job, taken, pid, chain, Moment(files, PutTrace(JobRun(sys, job, oracle), Look), n), end)
    ensures end.phase == if TraceClear(id, pid, files, n) then Done(JobRun(sys, job, oracle)) else Aborted
    ensures TracePath(id) !in files && TempPath(Traces, pid, n) in files ==>
      end.files == files - {TempPath(Traces, pid, n)}
    ensures forall p: Path | p.dir != Traces :: SameAt(files, end.files, p)
    ensures TraceClear(id, pid, files, n) ==> forall p | p != TracePath(id) :: SameAt(files, end.files, p)
  {
    var run := JobRun(sys, job, oracle);
    JobRunIsValid(sys, job, oracle);
    KeyPaths(Traces, id, Traces, id);
    var target, content := TracePath(id), TraceText(sys, job, id, run);
    OutcomeElsewhere(files, target, content, Unique, pid, n);
    chain := PutChain(sys, id, job, taken, pid, TheTrace(run), files, n);
    var outcome := PutOutcome(files, target, content, Unique, pid, n);
    end := Moment(outcome.0, AfterTrace(run, outcome.1), Uses(files, target, n));
  }

  lemma SameInTraces(files: Files, files': Files, files'': Files, id: string, clear: bool)
    requires forall p: Path | p.dir == Traces :: SameAt(files, files', p)
    requires clear ==> forall p | p != TracePath(id) :: SameAt(files', files'', p)
    ensures clear ==> forall p: Path | p.dir == Traces && p != TracePath(id) :: SameAt(files, files'', p)
  {
    if clear {
      forall p: Path | p.dir == Traces && p != TracePath(id) ensures SameAt(files, files'', p) {
        assert SameAt(files, files', p) && SameAt(files', files'', p);
      }
    }
  }

  lemma SourcesStay(sys: Sys, job: Job, files: Files, files': Files)
    requires Compile(sys, job).Program? && StoredBoth(sys, files, job)
    requires forall p: Path | p.dir != Traces :: SameAt(files, files', p)
    ensures StoredBoth(sys, files', job)
  {
    assert SameAt(files, files', ProgramPath(sys, job)) && SameAt(files, files', DescriptionPath(sys, job));
  }

  /** A request on its own, with no fault: as far as it gets. */
  lemma RequestChain(
    sys: Sys, id: string, job: Job, taken: set<Path>, pid: nat, files: Files, n: nat, oracle: Oracle)
    returns (chain: seq<Moment>, end: Moment)
    requires ValidSys(sys) && JobOk(sys, job) && ValidKey(id) && Unheld(taken, pid, n)
    ensures Passes(sys, id, job, taken, pid, chain, Moment(files, PutProgram(Look), n), end)
    ensures end.phase ==
            if Unobstructed(sys, files, id, job, pid, n) then Done(JobRun(sys, job, oracle)) else Aborted
    ensures Unobstructed(sys, files, id, job, pid, n) ==>
      StoredBoth(sys, end.files, job)
      && forall p: Path | p.dir == Traces && p != TracePath(id) :: SameAt(files, end.files, p)
  {
    var start, n' := Moment(files, PutProgram(Look), n), TraceCounter(sys, files, job, n);
    if SourcesClear(files, ProgramPath(sys, job), DescriptionPath(sys, job), DescriptionOf(sys, job).text, pid, n) {
      var files';
      chain, files' := ComesToTrace(sys, id, job, taken, pid, files, n, oracle);
      var rest;
      rest, end := PutsTrace(sys, id, job, taken, pid, files', n', oracle);
      SameTraceClear(id, pid, files, files', n');
      SameInTraces(files, files', end.files, id, TraceClear(id, pid, files', n'));
      chain := PassesOn(
        sys, id, job, taken, pid, chain, rest, start, Moment(files', PutTrace(JobRun(sys, job, oracle), Look), n'), end);
      SourcesStay(sys, job, files', end.files);
    } else {
      var files', m;
      chain, files', m := SourcesChain(sys, id, job, taken, pid, files, n);
      end := Moment(files', Aborted, m);
    }
  }

  /** No file is left under the temp names that this request's puts will use. */
  ghost predicate NamesFree(sys: Sys, files: Files, job: Job, pid: nat, n: nat)
    requires Compile(sys, job).Program?
  {
    && Clear(files, ProgramPath(sys, job), pid, n)
    && Clear(files, DescriptionPath(sys, job), pid, Uses(files, ProgramPath(sys, job), n))
    && TempPath(Traces, pid, TraceCounter(sys, files, job, n)) !in files
  }

  /** In a reachable state nothing else can obstruct a new request. */
  lemma OnlyNamesObstruct(sys: Sys, st: State, id: string, job: Job, pid: nat, n: nat)
    requires ValidSys(sys) && Inv(sys, st) && id !in st.threads && ValidKey(id) && JobOk(sys, job)
    ensures Unobstructed(sys, st.files, id, job, pid, n) <==> NamesFree(sys, st.files, job, pid, n)
  {
    assert TracePath(id) in st.files ==> FileOk(sys, st, Traces, id);
    if DescriptionPath(sys, job) in st.files {
      DescriptionStored(sys, st, job);
    }
  }

  /** From every reachable state, a new request of a process with a given id and
      counter, moving alone with no fault, ends: in `Done` with the run its
      downstreams' answers give if no file is left under the temp names of its own
      puts, and aborted otherwise. */
  lemma RequestEnds(sys: Sys, states: seq<State>, id: string, job: Job, oracle: Oracle, pid: nat, n: nat)
    returns (more: seq<State>, chain: seq<Moment>, end: Moment)
    requires ValidSys(sys) && Execution(sys, states) && id !in Last(states).threads
    requires ValidKey(id) && JobOk(sys, job) && Unheld(Taken(Last(states), id), pid, n)
    ensures Passes(
      sys, id, job, Taken(Last(states), id), pid, chain, Moment(Last(states).files, PutProgram(Look), n), end)
    ensures end.phase ==
            if NamesFree(sys, Last(states).files, job, pid, n) then Done(JobRun(sys, job, oracle)) else Aborted
    ensures NamesFree(sys, Last(states).files, job, pid, n) ==>
      StoredBoth(sys, end.files, job)
      && forall p: Path | p.dir == Traces && p != TracePath(id) :: SameAt(Last(states).files, end.files, p)
    ensures Execution(sys, more) && states <= more
    ensures Last(more) == State(end.files, Last(states).threads[id := Thread(job, end.phase)])
  {
    var st := Last(states);
    Reachable(sys, states, |states| - 1);
    OnlyNamesObstruct(sys, st, id, job, pid, n);
    chain, end := RequestChain(sys, id, job, Taken(st, id), pid, st.files, n, oracle);
    ShadowFollows(sys, id, job, Taken(st, id), pid, chain, Moment(st.files, PutProgram(Look), n), end);
    more := RequestRuns(sys, states, id, job, Shadow(chain), (end.files, end.phase));
  }

  // ---------------------------------------------------------------------
  // A run without a trace
  // ---------------------------------------------------------------------

  /** From any reachable state with a file left under the trace put's temp name, a
      new request makes its whole run, tool calls included, and is then aborted
      without a trace, although no file operation failed of itself. The file that
      was left is gone afterwards. */
  lemma LeftoverStrands(sys: Sys, states: seq<State>, id: string, job: Job, oracle: Oracle, pid: nat, n: nat)
    returns (more: seq<State>, i: nat, chain: seq<Moment>, end: Moment)
    requires ValidSys(sys) && Execution(sys, states) && id !in Last(states).threads
    requires ValidKey(id) && JobOk(sys, job) && Unheld(Taken(Last(states), id), pid, n)
    requires SourcesClear(
      Last(states).files, ProgramPath(sys, job), DescriptionPath(sys, job), DescriptionOf(sys, job).text, pid, n)
    requires TempPath(Traces, pid, TraceCounter(sys, Last(states).files, job, n)) in Last(states).files
    ensures Execution(sys, more) && states <= more && |states| <= i < |more|
    ensures id in more[i].threads && more[i].threads[id].phase == PutTrace(JobRun(sys, job, oracle), Look)
    ensures Passes(
      sys, id, job, Taken(Last(states), id), pid, chain, Moment(Last(states).files, PutProgram(Look), n), end)
    ensures end.phase == Aborted && TracePath(id) !in end.files
    ensures TempPath(Traces, pid, TraceCounter(sys, Last(states).files, job, n)) !in end.files
    ensures Last(more) == State(end.files, Last(states).threads[id := Thread(job, Aborted)])
  {
    var st := Last(states);
    var taken := Taken(st, id);
    UnusedId(sys, states, id);
    var start := Moment(st.files, PutProgram(Look), n);
    var first, ran, rest;
    first, ran, rest, end := StrandedChain(sys, id, job, taken, pid, st.files, n, oracle);
    chain := PassesOn(sys, id, job, taken, pid, first, rest, start, ran, end);
    var states' := StartsAs(sys, states, id, job, pid, first, start, ran);
    i := |states'| - 1;
    more := FinishesFrom(sys, st, states', id, job, pid, rest, ran, end);
    assert more[i] == states'[i];
    assert states == states'[..|states|] <= more;
  }

  lemma UnusedId(sys: Sys, states: seq<State>, id: string)
    requires ValidSys(sys) && Execution(sys, states) && id !in Last(states).threads && ValidKey(id)
    ensures TracePath(id) !in Last(states).files
  {
    Reachable(sys, states, |states| - 1);
    assert TracePath(id) in Last(states).files ==> FileOk(sys, Last(states), Traces, id);
  }

  /** A new request begins as a chain says. */
  lemma StartsAs(
    sys: Sys, states: seq<State>, id: string, job: Job, pid: nat, chain: seq<Moment>, a: Moment, b: Moment)
    returns (more: seq<State>)
    requires Execution(sys, states) && id !in Last(states).threads && ValidKey(id) && JobOk(sys, job)
    requires a.files == Last(states).files && a.phase == PutProgram(Look)
    requires Passes(sys, id, job, Taken(Last(states), id), pid, chain, a, b)
    ensures Execution(sys, more) && states <= more && |states| < |more|
    ensures Last(more) == State(b.files, Last(states).threads[id := Thread(job, b.phase)])
  {
    ShadowFollows(sys, id, job, Taken(Last(states), id), pid, chain, a, b);
    more := RequestRuns(sys, states, id, job, Shadow(chain), (b.files, b.phase));
    assert |more| == |states| ==> more == states;
  }

  lemma StrandedChain(
    sys: Sys, id: string, job: Job, taken: set<Path>, pid: nat, files: Files, n: nat, oracle: Oracle)
    returns (first: seq<Moment>, ran: Moment, rest: seq<Moment>, end: Moment)
    requires ValidSys(sys) && ValidKey(id) && JobOk(sys, job) && Unheld(taken, pid, n) && TracePath(id) !in files
    requires SourcesClear(
      files, ProgramPath(sys, job), DescriptionPath(sys, job), DescriptionOf(sys, job).text, pid, n)
    requires TempPath(Traces, pid, TraceCounter(sys, files, job, n)) in files
    ensures Passes(sys, id, job, taken, pid, first, Moment(files, PutProgram(Look), n), ran)
    ensures ran.phase == PutTrace(JobRun(sys, job, oracle), Look)
    ensures Passes(sys, id, job, taken, pid, rest, ran, end)
    ensures end.phase == Aborted && TracePath(id) !in end.files
    ensures TempPath(Traces, pid, TraceCounter(sys, files, job, n)) !in end.files
  {
    var n', files' := TraceCounter(sys, files, job, n), files;
    first, files' := ComesToTrace(sys, id, job, taken, pid, files, n, oracle);
    ran := Moment(files', PutTrace(JobRun(sys, job, oracle), Look), n');
    assert SameAt(files, files', TracePath(id)) && SameAt(files, files', TempPath(Traces, pid, n'));
    rest, end := PutsTrace(sys, id, job, taken, pid, files', n', oracle);
  }

  lemma FinishesFrom(
    sys: Sys, st: State, states: seq<State>, id: string, job: Job, pid: nat, chain: seq<Moment>, a: Moment, b: Moment)
    returns (more: seq<State>)
    requires Execution(sys, states) && Last(states) == State(a.files, st.threads[id := Thread(job, a.phase)])
    requires Passes(sys, id, job, Taken(st, id), pid, chain, a, b)
    ensures Execution(sys, more) && states <= more
    ensures Last(more) == State(b.files, st.threads[id := Thread(job, b.phase)])
  {
    TakenByOthers(st, id, Thread(job, a.phase), a.files);
    more := ChainRuns(sys, states, id, pid, chain, a, b);
    SetTwice(st.threads, id, Thread(job, a.phase), Thread(job, b.phase));
  }

  /** The process stops while one thread is at work. */
  lemma Stops(sys: Sys, states: seq<State>, id: string) returns (more: seq<State>)
    requires Execution(sys, states) && id in Last(states).threads && !Last(states).threads[id].phase.Done?
    ensures Execution(sys, more) && states <= more
    ensures Last(more) == Moved(Last(states), id, (Last(states).files, Crashed))
  {
    var st := Last(states);
    var st' := Moved(st, id, (st.files, Crashed));
    assert Crash(st, st', {id});
    LinkedAppend(Steps(sys), states, st');
    more := states + [st'];
  }

  /** A process that stops right after its trace put created its temp file leaves
      that file behind. */
  lemma LeavesTemp(sys: Sys, states: seq<State>, id: string, job: Job, oracle: Oracle, pid: nat)
    returns (more: seq<State>)
    requires ValidSys(sys) && Execution(sys, states) && id !in Last(states).threads
    requires ValidKey(id) && JobOk(sys, job) && Unheld(Taken(Last(states), id), pid, 0)
    requires StoredBoth(sys, Last(states).files, job) && TempPath(Traces, pid, 0) !in Last(states).files
    ensures Execution(sys, more) && states <= more
    ensures Last(more) == State(
      Last(states).files[TempPath(Traces, pid, 0) := ""], Last(states).threads[id := Thread(job, Crashed)])
  {
    var st := Last(states);
    UnusedId(sys, states, id);
    StoredAreClear(sys, states, job, pid);
    var chain, end := OpenChain(sys, id, job, Taken(st, id), pid, st.files, oracle);
    var open := StartsAs(sys, states, id, job, pid, chain, Moment(st.files, PutProgram(Look), 0), end);
    more := Stops(sys, open, id);
    assert states == open[..|states|] <= more;
    SetTwice(st.threads, id, Thread(job, end.phase), Thread(job, Crashed));
  }

  lemma SetTwice(threads: map<string, Thread>, id: string, t: Thread, u: Thread)
    ensures threads[id := t][id := u] == threads[id := u]
  {
  }

  /** As far as the trace's temp file, created. */
  lemma OpenChain(sys: Sys, id: string, job: Job, taken: set<Path>, pid: nat, files: Files, oracle: Oracle)
    returns (chain: seq<Moment>, end: Moment)
    requires ValidSys(sys) && ValidKey(id) && JobOk(sys, job) && Unheld(taken, pid, 0) && TracePath(id) !in files
    requires SourcesClear(
      files, ProgramPath(sys, job), DescriptionPath(sys, job), DescriptionOf(sys, job).text, pid, 0)
    requires StoredBoth(sys, files, job) && TempPath(Traces, pid, 0) !in files
    ensures Passes(sys, id, job, taken, pid, chain, Moment(files, PutProgram(Look), 0), end)
    ensures end.files == files[TempPath(Traces, pid, 0) := ""] && end.phase.PutTrace?
  {
    var tmp, run := TempPath(Traces, pid, 0), JobRun(sys, job, oracle);
    JobRunIsValid(sys, job, oracle);
    var files';
    chain, files' := ComesToTrace(sys, id, job, taken, pid, files, 0, oracle);
    var rest := CreateChain(sys, id, job, taken, pid, TheTrace(run), files, 0);
    end := Moment(files[tmp := ""], PutTrace(run, Open(tmp, 0)), 1);
    chain := PassesOn(
      sys, id, job, taken, pid, chain, rest, Moment(files, PutProgram(Look), 0),
      Moment(files, PutTrace(run, Look), 0), end);
  }

  const Z := "c"

  lemma NothingHeld(st: State, id: string, pid: nat, n: nat)
    requires forall i | i in st.threads :: PhaseHolds(st.threads[i].phase) == {}
    ensures Unheld(Taken(st, id), pid, n)
  {
  }

  /** A first request of an empty store finishes and leaves no temp file. */
  lemma FirstRequest(sys: Sys, job: Job, oracle: Oracle, pid: nat) returns (states: seq<State>)
    requires ValidSys(sys) && JobOk(sys, job)
    ensures Execution(sys, states) && StoredBoth(sys, Last(states).files, job)
    ensures Last(states).threads == map[X := Thread(job, Done(JobRun(sys, job, oracle)))]
    ensures TempPath(Traces, pid, 0) !in Last(states).files
  {
    states := [State(map[], map[])];
    NothingHeld(Last(states), X, pid, 0);
    var chain, end;
    states, chain, end := RequestEnds(sys, states, X, job, oracle, pid, 0);
    TempPaths(Traces, pid, 0, Traces, pid, 0);
    KeyPaths(Traces, X, Traces, X);
    assert SameAt(map[], end.files, TempPath(Traces, pid, 0));
  }

  lemma StoredAreClear(sys: Sys, states: seq<State>, job: Job, pid: nat)
    requires ValidSys(sys) && Execution(sys, states) && JobOk(sys, job) && StoredBoth(sys, Last(states).files, job)
    ensures SourcesClear(
      Last(states).files, ProgramPath(sys, job), DescriptionPath(sys, job), DescriptionOf(sys, job).text, pid, 0)
    ensures TraceCounter(sys, Last(states).files, job, 0) == 0
  {
    Reachable(sys, states, |states| - 1);
    DescriptionStored(sys, Last(states), job);
  }

  /** A first request that finished, and a second that the process stopped in. */
  lemma CrashedStore(sys: Sys, job: Job, oracle: Oracle, pid: nat) returns (states: seq<State>)
    requires ValidSys(sys) && JobOk(sys, job)
    ensures Execution(sys, states) && StoredBoth(sys, Last(states).files, job)
    ensures Last(states).threads.Keys == {X, Y} && Last(states).threads[Y].phase == Crashed
    ensures TempPath(Traces, pid, 0) in Last(states).files && Unheld(Taken(Last(states), Z), pid, 0)
  {
    var first := FirstRequest(sys, job, oracle, pid);
    NothingHeld(Last(first), Y, pid, 0);
    states := LeavesTemp(sys, first, Y, job, oracle, pid);
    NothingHeld(Last(states), Z, pid, 0);
  }

  /** The input: a process that stops while putting a trace, started again with
      the same process id, as in a container. The next run of the program makes
      all its tool calls and leaves no trace, with nothing failing of itself. */
  lemma Restarted(sys: Sys, job: Job, oracle: Oracle, pid: nat)
    returns (states: seq<State>, i: nat, j: nat, chain: seq<Moment>, end: Moment)
    requires ValidSys(sys) && JobOk(sys, job)
    ensures Execution(sys, states) && i < j < |states|
    ensures states[i].threads.Keys == {X, Y} && states[i].threads[Y].phase == Crashed
    ensures Z in states[j].threads && states[j].threads[Z].phase == PutTrace(JobRun(sys, job, oracle), Look)
    ensures Passes(
      sys, Z, job, Taken(states[i], Z), pid, chain, Moment(states[i].files, PutProgram(Look), 0), end)
    ensures Last(states) == State(end.files, states[i].threads[Z := Thread(job, Aborted)])
    ensures TracePath(Z) !in Last(states).files
  {
    var crashed := CrashedStore(sys, job, oracle, pid);
    i := |crashed| - 1;
    StoredAreClear(sys, crashed, job, pid);
    states, j, chain, end := LeftoverStrands(sys, crashed, Z, job, oracle, pid, 0);
    assert states[i] == crashed[i];
    assert Z !in states[i].threads;
  }
}
