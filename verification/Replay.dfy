/** Running a stored trace again, and comparing the two runs. */
module Replay {
  import opened Text
  import opened Core
  import opened Tracing
  import opened Store
  import opened Dialect

  datatype Mismatch =
    | ProgramHashDiffers
    | Diverged(where: Divergence)
    | Unconsumed
    | OutputDiffers
    | StatusDiffers
    | GasDiffers
    | MemoryDiffers

  /** `matched` is `mismatches == []`. */
  datatype Report = Report(mismatches: seq<Mismatch>, footer: Footer)

  function When(b: bool, m: Mismatch): seq<Mismatch>
  {
    if b then [m] else []
  }

  /** What a stored trace is replayed from. */
  datatype Loaded = Loaded(trace: Trace, program: Compiled)

  function Load(core: Core, crypto: Crypto, key: Key, files: Files, id: string): Result<Loaded>
  {
    var path := FindKeyPath(Traces, id);
    if path.Err? || path.value !in files then Err("trace " + id)
    else
      match crypto.fromJson(files[path.value])
      case None => Err("trace JSON")
      case Some(trace) =>
        if !Verifies(crypto, key, trace) then Err("signature verification failed")
        else
          var program := FindKeyPath(Programs, trace.header.programHash);
          if program.Err? || program.value !in files then Err("program " + trace.header.programHash)
          else
            match core.compile(files[program.value])
            case Accepted(c) => Ok(Loaded(trace, c))
            case _ => Err("program does not compile")
  }

  /** A replay starts exactly from a visible trace that verifies and whose program
      is stored and compiles; anything else is an error. */
  lemma LoadExact(core: Core, crypto: Crypto, key: Key, files: Files, id: string, trace: Trace, c: Compiled)
    ensures Load(core, crypto, key, files, id) == Ok(Loaded(trace, c))
            <==>
            && ValidKey(id) && KeyPath(Traces, id) in files
            && crypto.fromJson(files[KeyPath(Traces, id)]) == Some(trace) && Verifies(crypto, key, trace)
            && var program := KeyPath(Programs, trace.header.programHash);
               ValidKey(trace.header.programHash) && program in files && core.compile(files[program]) == Accepted(c)
  {
  }

  /** A stored trace that differs from the one its signature was made for, or is
      checked with another key, is refused before anything is replayed. */
  lemma TamperedRefused(
    core: Core, crypto: Crypto, key: Key, signed: Trace, files: Files, id: string, k: Key, t: Trace)
    requires Sound(crypto) && Unforgeable(crypto)
    requires KeyPath(Traces, id) in files && files[KeyPath(Traces, id)] == crypto.toJson(t)
    requires t.footer.signature == Sign(crypto, key, signed).footer.signature
    requires k != key || t != Sign(crypto, key, signed)
    ensures Load(core, crypto, k, files, id).Err?
  {
    TamperDetected(crypto, key, signed, k, t);
  }

  function FullTape(trace: Trace): Tape
  {
    Tape(Records(trace.entries), 0, None)
  }

  lemma {:induction false} TapeRunHalts(core: Core, s: VmState, tape: Tape)
    requires Lawful(core)
    ensures Halted(core, RunTape(core, s, tape).0)
    decreases core.fuel(s)
  {
    match core.step(s)
    case Compute(next) => TapeRunHalts(core, next, tape);
    case Call(name, args) =>
      var (tape', reply) := TapeCall(core, tape, name, args);
      TapeRunHalts(core, core.resume(s, reply), tape');
    case _ =>
  }

  /** The tape's divergence, if it has one. */
  function Where(divergence: Option<Divergence>): Divergence
  {
    if divergence.Some? then divergence.value else Divergence(0, None, ("", ""))
  }

  /** Which of the recorded and the replayed run differ, and where the tape
      diverged. */
  datatype Differences = Differences(
    hash: bool, diverged: Option<Divergence>, left: bool, output: bool, status: bool, gas: bool, memory: bool)

  /** The comparisons, in the order they are made: what differs, and what is then
      reported. */
  function Checks(d: Differences, r: nat): (bool, Mismatch)
  {
    if r == 0 then (d.hash, ProgramHashDiffers)
    else if r == 1 then (d.diverged.Some?, Diverged(Where(d.diverged)))
    else if r == 2 then (d.left, Unconsumed)
    else if r == 3 then (d.output, OutputDiffers)
    else if r == 4 then (d.status, StatusDiffers)
    else if r == 5 then (d.gas, GasDiffers)
    else (d.memory, MemoryDiffers)
  }

  /** The mismatches of the first `n` comparisons. */
  function Departures(d: Differences, n: nat): seq<Mismatch>
  {
    if n == 0 then [] else Departures(d, n - 1) + When(Checks(d, n - 1).0, Checks(d, n - 1).1)
  }

  const CHECKS := 7

  function Replayed(core: Core, stored: Loaded, s: VmState): Footer
    requires Halted(core, s)
  {
    FooterOf(core, stored.program.lines, 0, stored.trace.header.vmConfig.maxOutputBytes, s)
  }

  function DifferencesOf(core: Core, stored: Loaded, replayed: Footer, tape: Tape): Differences
  {
    var footer := stored.trace.footer;
    Differences(
      core.programHash(stored.program.code) != stored.trace.header.programHash,
      tape.divergence, |tape.records| > tape.pos, replayed.output != footer.output,
      StatusKind(replayed.status) != StatusKind(footer.status), replayed.gasUsed != footer.gasUsed,
      replayed.memoryUsed != footer.memoryUsed)
  }

  /** Every way the halted replay departs from the recording. */
  function Compare(core: Core, stored: Loaded, s: VmState, tape: Tape): Report
    requires Halted(core, s)
  {
    var replayed := Replayed(core, stored, s);
    Report(Departures(DifferencesOf(core, stored, replayed, tape), CHECKS), replayed)
  }

  ghost function ReplayStored(core: Core, stored: Loaded): Report
    requires Lawful(core)
  {
    var begin := core.start(stored.program.code, stored.trace.header.vmConfig);
    var (s, tape) := RunTape(core, begin, FullTape(stored.trace));
    TapeRunHalts(core, begin, FullTape(stored.trace));
    Compare(core, stored, s, tape)
  }

  /** One comparison: `mismatches.push` under its condition. */
  method Push(mismatches: seq<Mismatch>, b: bool, m: Mismatch, ghost d: Differences, ghost n: nat)
    returns (r: seq<Mismatch>)
    requires mismatches == Departures(d, n) && Checks(d, n) == (b, m)
    ensures r == Departures(d, n + 1)
  {
    r := mismatches;
    if b {
      r := r + [m];
    }
  }

  method CompareRun(core: Core, stored: Loaded, s: VmState, tape: Tape) returns (report: Report)
    requires Halted(core, s)
    ensures report == Compare(core, stored, s, tape)
  {
    var Loaded(trace, program) := stored;
    var footer := Replayed(core, stored, s);
    ghost var d := DifferencesOf(core, stored, footer, tape);
    var mismatches := [];
    mismatches := Push(mismatches, core.programHash(program.code) != trace.header.programHash, ProgramHashDiffers, d, 0);
    mismatches := Push(mismatches, tape.divergence.Some?, Diverged(Where(tape.divergence)), d, 1);
    mismatches := Push(mismatches, |tape.records| > tape.pos, Unconsumed, d, 2);
    mismatches := Push(mismatches, footer.output != trace.footer.output, OutputDiffers, d, 3);
    mismatches := Push(mismatches, StatusKind(footer.status) != StatusKind(trace.footer.status), StatusDiffers, d, 4);
    mismatches := Push(mismatches, footer.gasUsed != trace.footer.gasUsed, GasDiffers, d, 5);
    mismatches := Push(mismatches, footer.memoryUsed != trace.footer.memoryUsed, MemoryDiffers, d, 6);
    report := Report(mismatches, footer);
  }

  method RunOnTape(core: Core, begin: VmState, records: seq<Record>) returns (s: VmState, tape: Tape)
    requires Lawful(core)
    ensures (s, tape) == RunTape(core, begin, Tape(records, 0, None)) && Halted(core, s)
  {
    s, tape := begin, Tape(records, 0, None);
    while !Halted(core, s)
      invariant RunTape(core, s, tape) == RunTape(core, begin, Tape(records, 0, None))
      decreases core.fuel(s)
    {
      match core.step(s)
      case Compute(next) => s := next;
      case Call(name, args) =>
        var (tape', reply) := TapeCall(core, tape, name, args);
        s, tape := core.resume(s, reply), tape';
    }
  }

  /** The replay as performed: a strict tape, the header's limits, and one check
      at a time. */
  method Replay(core: Core, crypto: Crypto, key: Key, files: Files, id: string) returns (r: Result<Report>)
    requires Lawful(core)
    ensures r == match Load(core, crypto, key, files, id)
                 case Err(e) => Err(e)
                 case Ok(stored) => Ok(ReplayStored(core, stored))
  {
    var loaded := Load(core, crypto, key, files, id);
    if loaded.Err? {
      return Err(loaded.error);
    }
    var Loaded(trace, program) := loaded.value;
    var begin := core.start(program.code, trace.header.vmConfig);
    var s, tape := RunOnTape(core, begin, Records(trace.entries));
    var report := CompareRun(core, loaded.value, s, tape);
    r := Ok(report);
  }

  lemma {:induction false} PositionBounded(core: Core, s: VmState, tape: Tape)
    requires Lawful(core) && tape.divergence.None? && tape.pos <= |tape.records|
    ensures var t := RunTape(core, s, tape).1; t.divergence.None? ==> t.pos <= |t.records|
    decreases core.fuel(s)
  {
    match core.step(s)
    case Compute(next) => PositionBounded(core, next, tape);
    case Call(name, args) =>
      var (tape', reply) := TapeCall(core, tape, name, args);
      if tape'.divergence.Some? {
        StaysDiverged(core, core.resume(s, reply), tape');
      } else {
        PositionBounded(core, core.resume(s, reply), tape');
      }
    case _ =>
  }

  lemma {:induction false} NoneFound(d: Differences, n: nat)
    ensures Departures(d, n) == [] <==> forall r: nat | r < n :: !Checks(d, r).0
  {
    if n == 0 {
    } else {
      NoneFound(d, n - 1);
    }
  }

  lemma NoDepartures(d: Differences)
    ensures Departures(d, CHECKS) == []
            <==> !d.hash && d.diverged.None? && !d.left && !d.output && !d.status && !d.gas && !d.memory
  {
    NoneFound(d, CHECKS);
    assert Checks(d, 0).0 == d.hash && Checks(d, 1).0 == d.diverged.Some? && Checks(d, 2).0 == d.left;
    assert Checks(d, 3).0 == d.output && Checks(d, 4).0 == d.status && Checks(d, 5).0 == d.gas;
    assert Checks(d, 6).0 == d.memory;
  }

  /** A run that uses up the tape and ends as recorded has no mismatch. */
  lemma FollowedMatches(core: Core, stored: Loaded, s: VmState)
    requires Lawful(core) && Halted(core, s)
    requires core.programHash(stored.program.code) == stored.trace.header.programHash
    requires var tape := FullTape(stored.trace);
             RunTape(core, core.start(stored.program.code, stored.trace.header.vmConfig), tape)
             == (s, tape.(pos := |tape.records|))
    requires SameRun(Replayed(core, stored, s), stored.trace.footer)
    ensures ReplayStored(core, stored).mismatches == []
  {
    var tape := FullTape(stored.trace);
    NoDepartures(DifferencesOf(core, stored, Replayed(core, stored, s), tape.(pos := |tape.records|)));
  }

  /** `matched` says exactly this: the stored program is the recorded one, it
      made the recorded calls and no others, and it ended as recorded. */
  lemma MatchedExact(core: Core, stored: Loaded)
    requires Lawful(core)
    ensures var begin := core.start(stored.program.code, stored.trace.header.vmConfig);
            ReplayStored(core, stored).mismatches == []
            <==>
            && core.programHash(stored.program.code) == stored.trace.header.programHash
            && CallsMade(core, begin, FullTape(stored.trace)) == CallKeys(Records(stored.trace.entries))
            && SameRun(ReplayStored(core, stored).footer, stored.trace.footer)
  {
    var begin := core.start(stored.program.code, stored.trace.header.vmConfig);
    var tape := FullTape(stored.trace);
    FollowedExactly(core, begin, tape);
    PositionBounded(core, begin, tape);
    assert tape.records[0..] == Records(stored.trace.entries);
    TapeRunHalts(core, begin, tape);
    var (s, end) := RunTape(core, begin, tape);
    NoDepartures(DifferencesOf(core, stored, Replayed(core, stored, s), end));
  }

  /** The order in which mismatches are listed, each at most once. */
  function Rank(m: Mismatch): nat
  {
    match m
    case ProgramHashDiffers => 0
    case Diverged(_) => 1
    case Unconsumed => 2
    case OutputDiffers => 3
    case StatusDiffers => 4
    case GasDiffers => 5
    case MemoryDiffers => 6
  }

  /** What each mismatch of a report says of the run `s`, `made` and `recorded`. */
  ghost predicate Says(
    core: Core, stored: Loaded, s: VmState, made: seq<(string, string)>, recorded: seq<(string, string)>, m: Mismatch)
  {
    var footer, max := stored.trace.footer, stored.trace.header.vmConfig.maxOutputBytes;
    var k := Common(made, recorded);
    match m
    case ProgramHashDiffers => core.programHash(stored.program.code) != stored.trace.header.programHash
    case Diverged(d) =>
      k < |made| && d == Divergence(k, if k < |recorded| then Some(recorded[k]) else None, made[k])
    case Unconsumed => k < |recorded|
    case OutputDiffers => !forall text :: footer.output == Some(text) <==> Outputs(core, s, max, text)
    case StatusDiffers => StatusKind(footer.status) != Ending(core, stored.program.lines, s, max)
    case GasDiffers => footer.gasUsed != core.gas(s)
    case MemoryDiffers => footer.memoryUsed != core.memory(s)
  }

  /** The report lists exactly what departs: a mismatch is in it if and only if
      what it says is so, in a fixed order, each once. A divergence is the first
      call made that is not the recorded one, and calls are left unconsumed when
      the calls made stop short of the recorded ones or part from them. */
  lemma ReportExact(core: Core, stored: Loaded, m: Mismatch)
    requires Lawful(core)
    ensures var begin := core.start(stored.program.code, stored.trace.header.vmConfig);
            var made, recorded := CallsMade(core, begin, FullTape(stored.trace)), CallKeys(Records(stored.trace.entries));
            m in ReplayStored(core, stored).mismatches
            <==> Says(core, stored, RunTape(core, begin, FullTape(stored.trace)).0, made, recorded, m)
    ensures var mismatches := ReplayStored(core, stored).mismatches;
            Ranked(mismatches)
    ensures Tells(
      core, stored.program.lines,
      RunTape(core, core.start(stored.program.code, stored.trace.header.vmConfig), FullTape(stored.trace)).0,
      stored.trace.header.vmConfig.maxOutputBytes, ReplayStored(core, stored).footer)
  {
    var begin, tape := core.start(stored.program.code, stored.trace.header.vmConfig), FullTape(stored.trace);
    TapeRunHalts(core, begin, tape);
    TapeEnds(core, begin, tape);
    CompareExact(core, stored, RunTape(core, begin, tape).0, CallsMade(core, begin, tape), m);
  }

  lemma CompareExact(core: Core, stored: Loaded, s: VmState, made: seq<(string, string)>, m: Mismatch)
    requires Halted(core, s)
    ensures var report := Compare(core, stored, s, EndOf(FullTape(stored.trace), made));
            && (m in report.mismatches
                <==> Says(core, stored, s, made, CallKeys(Records(stored.trace.entries)), m))
            && Ranked(report.mismatches)
            && Tells(core, stored.program.lines, s, stored.trace.header.vmConfig.maxOutputBytes, report.footer)
  {
    var tape := FullTape(stored.trace);
    var end := EndOf(tape, made);
    assert tape.records[0..] == Records(stored.trace.entries);
    FooterTells(core, stored.program.lines, 0, stored.trace.header.vmConfig.maxOutputBytes, s);
    KeyCount(tape.records);
    OutputsDecide(core, stored, s);
    var replayed := Replayed(core, stored, s);
    DeparturesExact(DifferencesOf(core, stored, replayed, end), CHECKS);
  }

  lemma {:induction false} KeyCount(records: seq<Record>)
    ensures |CallKeys(records)| == |records|
  {
    if records == [] {
    } else {
      KeyCount(records[1..]);
    }
  }

  /** A recorded output is the replayed one exactly when it tells the same run. */
  lemma OutputsDecide(core: Core, stored: Loaded, s: VmState)
    requires Halted(core, s)
    ensures var max := stored.trace.header.vmConfig.maxOutputBytes;
            FooterOf(core, stored.program.lines, 0, max, s).output == stored.trace.footer.output
            <==> forall text :: stored.trace.footer.output == Some(text) <==> Outputs(core, s, max, text)
  {
    var max := stored.trace.header.vmConfig.maxOutputBytes;
    FooterTells(core, stored.program.lines, 0, max, s);
    var a, b := FooterOf(core, stored.program.lines, 0, max, s).output, stored.trace.footer.output;
    assert a.Some? ==> Outputs(core, s, max, a.value);
    assert b.Some? ==> (Outputs(core, s, max, b.value) <==> a == b);
  }

  ghost predicate Ranked(ms: seq<Mismatch>)
  {
    forall i, j | 0 <= i < j < |ms| :: Rank(ms[i]) < Rank(ms[j])
  }

  /** The list itself, over any differences. */
  lemma {:induction false} DeparturesExact(d: Differences, n: nat)
    requires n <= CHECKS
    ensures forall m :: m in Departures(d, n) <==> Rank(m) < n && Checks(d, Rank(m)) == (true, m)
    ensures Ranked(Departures(d, n))
  {
    if n == 0 {
    } else {
      DeparturesExact(d, n - 1);
      assert Rank(Checks(d, n - 1).1) == n - 1;
    }
  }

  /** What a matched trace claims is a function of its program hash, its limits
      and its records: two matched traces that agree on those agree on output,
      status kind, gas and memory, whoever made them and whatever their source. */
  lemma MatchedDetermined(core: Core, a: Loaded, b: Loaded)
    requires Lawful(core)
    requires ReplayStored(core, a).mismatches == [] && ReplayStored(core, b).mismatches == []
    requires a.trace.header.programHash == b.trace.header.programHash
    requires a.trace.header.vmConfig == b.trace.header.vmConfig
    requires Records(a.trace.entries) == Records(b.trace.entries)
    ensures SameRun(a.trace.footer, b.trace.footer)
  {
    MatchedExact(core, a);
    MatchedExact(core, b);
    assert a.program.code == b.program.code;
    var begin := core.start(a.program.code, a.trace.header.vmConfig);
    var s := RunTape(core, begin, FullTape(a.trace)).0;
    TapeRunHalts(core, begin, FullTape(a.trace));
    FooterIgnoresLines(core, a.program.lines, b.program.lines, 0, 0, a.trace.header.vmConfig.maxOutputBytes, s);
  }
}
