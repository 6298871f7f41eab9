/** The contract of proveno-core, the VM the gateway drives. Core is not part of
    this repository, so it is a value of type `Core`: arbitrary functions, of
    which only `Lawful` is known. Every theorem holds for every lawful core. */
module Core {
  import opened Text
  import opened Values
  import opened Dialect

  /** A VM state, a compiled program without its line table, and a line table. */
  type VmState(!new, 00)
  type Code(!new, 00)
  type Lines(!new, 00)

  datatype Compiled = Compiled(code: Code, lines: Lines)

  datatype VmSettings = VmSettings(
    gasLimit: nat, memoryLimitBytes: nat, maxCallDepth: nat, maxToolCalls: nat,
    maxToolBytesIn: nat, maxToolBytesOut: nat, maxOutputBytes: nat)

  datatype VmError =
    | WithLine(line: nat, inner: VmError)
    | GasExhausted
    | MemoryExhausted
    | CallDepthExceeded
    | TypeError(message: string)
    | RuntimeError(value: string)
    | ToolError(message: string)
    | OutputExceeded

  type Reply = Result<LuaTable>

  /** One step: compute, ask the host for a tool call, or halt. */
  datatype Step =
    | Compute(next: VmState)
    | Call(name: string, args: LuaTable)
    | Return(value: LuaValue)
    | Raise

  datatype Canon = Bytes(text: string) | Refused(error: VmError)

  datatype CallStatus = CallOk | CallError

  /** Core's record of one tool call. */
  datatype Record = Record(
    name: string, args: string, status: CallStatus, response: string, errorMessage: string, attestation: string)

  datatype Divergence = Divergence(at: nat, expected: Option<(string, string)>, actual: (string, string))

  /** The strict tape host: recorded calls are answered in order. */
  datatype Tape = Tape(records: seq<Record>, pos: nat, divergence: Option<Divergence>)

  datatype Core = Core(
    compile: string -> Compilation<Compiled>,
    programHash: Code -> string,
    start: (Code, VmSettings) -> VmState,
    step: VmState -> Step,
    resume: (VmState, Reply) -> VmState,
    raised: (Lines, VmState) -> VmError,
    gas: VmState -> nat,
    memory: VmState -> nat,
    fuel: VmState -> nat,
    canonical: LuaValue -> Canon,
    argsBytes: LuaTable -> string,
    parse: string -> Option<Json>,
    decode: string -> LuaTable,
    divergenceError: (Tape, string, LuaTable) -> string,
    afterDivergence: (Tape, string, LuaTable) -> (Tape, Reply))

  // ---------------------------------------------------------------------
  // Errors
  // ---------------------------------------------------------------------

  /** The `VmError` variant under every line wrapper. */
  function Kind(e: VmError): string
  {
    match e
    case WithLine(_, inner) => Kind(inner)
    case GasExhausted => "GasExhausted"
    case MemoryExhausted => "MemoryExhausted"
    case CallDepthExceeded => "CallDepthExceeded"
    case TypeError(_) => "TypeError"
    case RuntimeError(_) => "RuntimeError"
    case ToolError(_) => "ToolError"
    case OutputExceeded => "OutputExceeded"
  }

  // ---------------------------------------------------------------------
  // Laws
  // ---------------------------------------------------------------------

  /** Gas is metered, so every step and every reply uses some of what is left. */
  ghost predicate Metered(core: Core)
  {
    && (forall s :: core.step(s).Compute? ==> core.fuel(core.step(s).next) < core.fuel(s))
    && (forall s, r: Reply :: core.step(s).Call? ==> core.fuel(core.resume(s, r)) < core.fuel(s))
  }

  /** The program hash is a collision-free hash, in hex, of the bytecode alone. */
  ghost predicate HashesCode(core: Core)
  {
    && (forall c, d :: core.programHash(c) == core.programHash(d) ==> c == d)
    && (forall c :: ValidKey(core.programHash(c)))
  }

  /** Line numbers show up only in the wrapper of an uncaught error. */
  ghost predicate LinesOnlyWrap(core: Core)
  {
    forall l, m, s :: Kind(core.raised(l, s)) == Kind(core.raised(m, s))
  }

  /** A table JSON can describe, once encoded, is decoded to the same table from
      the tape. The encoding of call arguments is the canonical one when there
      is one. */
  ghost predicate CanonicalRoundTrip(core: Core)
  {
    && (forall t: LuaTable :: Plain(Table(t)) && core.canonical(Table(t)).Bytes? ==>
          core.decode(core.canonical(Table(t)).text) == t)
    && (forall t: LuaTable :: core.canonical(Table(t)).Bytes? ==>
          core.argsBytes(t) == core.canonical(Table(t)).text)
  }

  /** The canonical encoding is JSON (section 2 of RFC 8259): what is written for
      a table JSON can describe parses to that table's JSON form. */
  ghost predicate CanonicalIsJson(core: Core)
  {
    forall t: LuaTable :: Plain(Table(t)) && core.canonical(Table(t)).Bytes? ==>
      core.parse(core.canonical(Table(t)).text) == Some(PlainJson(Table(t)))
  }

  /** A tape that has diverged remembers the divergence, consumes nothing more,
      and answers every call with an error. */
  ghost predicate DivergenceSticks(core: Core)
  {
    forall t: Tape, name, args: LuaTable ::
      t.divergence.Some? ==> core.afterDivergence(t, name, args).0 == t && core.afterDivergence(t, name, args).1.Err?
  }

  ghost predicate Lawful(core: Core)
  {
    && Metered(core) && HashesCode(core) && LinesOnlyWrap(core)
    && CanonicalRoundTrip(core) && CanonicalIsJson(core) && DivergenceSticks(core)
  }

  // ---------------------------------------------------------------------
  // Running against a strict tape
  // ---------------------------------------------------------------------

  function CallKey(r: Record): (string, string)
  {
    (r.name, r.args)
  }

  function Recorded(core: Core, r: Record): Reply
  {
    if r.status.CallOk? then Ok(core.decode(r.response)) else Err(r.errorMessage)
  }

  /** A call that differs from the next recorded one consumes nothing, is
      remembered, and raises an error. */
  function TapeCall(core: Core, tape: Tape, name: string, args: LuaTable): (Tape, Reply)
  {
    var key := (name, core.argsBytes(args));
    if tape.divergence.Some? then core.afterDivergence(tape, name, args)
    else if tape.pos < |tape.records| && CallKey(tape.records[tape.pos]) == key then
      (tape.(pos := tape.pos + 1), Recorded(core, tape.records[tape.pos]))
    else
      var expected := if tape.pos < |tape.records| then Some(CallKey(tape.records[tape.pos])) else None;
      (tape.(divergence := Some(Divergence(tape.pos, expected, key))), Err(core.divergenceError(tape, name, args)))
  }

  /** The halted state a program reaches over a tape, and the tape then. */
  ghost function RunTape(core: Core, s: VmState, tape: Tape): (VmState, Tape)
    requires Lawful(core)
    decreases core.fuel(s)
  {
    match core.step(s)
    case Compute(next) => RunTape(core, next, tape)
    case Call(name, args) =>
      var (tape', reply) := TapeCall(core, tape, name, args);
      RunTape(core, core.resume(s, reply), tape')
    case _ => (s, tape)
  }

  /** The calls that run makes, in order. */
  ghost function CallsMade(core: Core, s: VmState, tape: Tape): seq<(string, string)>
    requires Lawful(core)
    decreases core.fuel(s)
  {
    match core.step(s)
    case Compute(next) => CallsMade(core, next, tape)
    case Call(name, args) =>
      var (tape', reply) := TapeCall(core, tape, name, args);
      [(name, core.argsBytes(args))] + CallsMade(core, core.resume(s, reply), tape')
    case _ => []
  }

  function CallKeys(records: seq<Record>): seq<(string, string)>
  {
    if records == [] then [] else [CallKey(records[0])] + CallKeys(records[1..])
  }

  /** The replay followed the tape to its end. */
  predicate Followed(tape: Tape)
  {
    tape.divergence.None? && tape.pos == |tape.records|
  }

  lemma {:induction false} StaysDiverged(core: Core, s: VmState, tape: Tape)
    requires Lawful(core) && tape.divergence.Some?
    ensures RunTape(core, s, tape).1 == tape
    decreases core.fuel(s)
  {
    match core.step(s)
    case Compute(next) => StaysDiverged(core, next, tape);
    case Call(name, args) =>
      var (tape', reply) := TapeCall(core, tape, name, args);
      StaysDiverged(core, core.resume(s, reply), tape');
    case _ =>
  }

  /** A run follows the tape to its end exactly when it makes the recorded
      calls: the same names and arguments, in the same order, all of them. */
  lemma {:induction false} FollowedExactly(core: Core, s: VmState, tape: Tape)
    requires Lawful(core) && tape.divergence.None? && tape.pos <= |tape.records|
    ensures Followed(RunTape(core, s, tape).1)
            <==> CallsMade(core, s, tape) == CallKeys(tape.records[tape.pos..])
    decreases core.fuel(s)
  {
    var left := tape.records[tape.pos..];
    match core.step(s)
    case Compute(next) => FollowedExactly(core, next, tape);
    case Call(name, args) =>
      var (tape', reply) := TapeCall(core, tape, name, args);
      var s' := core.resume(s, reply);
      var key := (name, core.argsBytes(args));
      assert CallsMade(core, s, tape) == [key] + CallsMade(core, s', tape');
      if tape'.divergence.Some? {
        StaysDiverged(core, s', tape');
        assert (if left == [] then CallKeys(left) == [] else CallKeys(left)[0] == CallKey(left[0]));
        assert ([key] + CallsMade(core, s', tape'))[0] == key;
      } else {
        FollowedExactly(core, s', tape');
        assert left[1..] == tape'.records[tape'.pos..];
        assert CallKeys(left) == [key] + CallKeys(left[1..]);
        assert ([key] + CallsMade(core, s', tape'))[1..] == CallsMade(core, s', tape');
        assert ([key] + CallKeys(left[1..]))[1..] == CallKeys(left[1..]);
      }
    case _ =>
      assert left == [] <==> CallKeys(left) == [];
  }

  /** Where a tape ends up when `made` is called over it, undiverged so far. */
  ghost function EndOf(tape: Tape, made: seq<(string, string)>): Tape
    requires tape.pos <= |tape.records|
  {
    var keys := CallKeys(tape.records[tape.pos..]);
    var k := Common(made, keys);
    Tape(
      tape.records, tape.pos + k,
      if k == |made| then None
      else Some(Divergence(tape.pos + k, if k < |keys| then Some(keys[k]) else None, made[k])))
  }

  lemma EndOfFirst(tape: Tape, key: (string, string), rest: seq<(string, string)>)
    requires tape.divergence.None? && tape.pos <= |tape.records|
    ensures tape.pos < |tape.records| && CallKey(tape.records[tape.pos]) == key ==>
      EndOf(tape, [key] + rest) == EndOf(tape.(pos := tape.pos + 1), rest)
    ensures !(tape.pos < |tape.records| && CallKey(tape.records[tape.pos]) == key) ==>
      EndOf(tape, [key] + rest) == tape.(divergence := Some(Divergence(
        tape.pos, if tape.pos < |tape.records| then Some(CallKey(tape.records[tape.pos])) else None, key)))
  {
    var left := tape.records[tape.pos..];
    var keys := CallKeys(left);
    CommonCons(key, rest, keys);
    if left != [] {
      assert left[0] == tape.records[tape.pos] && left[1..] == tape.records[tape.pos + 1..];
      assert keys == [CallKey(left[0])] + CallKeys(left[1..]) && keys[1..] == CallKeys(left[1..]);
    }
  }

  /** The tape at the end of a run: used as far as the calls made are those
      recorded, and diverged at the first call, if any, that is not. */
  lemma {:induction false} TapeEnds(core: Core, s: VmState, tape: Tape)
    requires Lawful(core) && tape.divergence.None? && tape.pos <= |tape.records|
    ensures RunTape(core, s, tape).1 == EndOf(tape, CallsMade(core, s, tape))
    decreases core.fuel(s)
  {
    match core.step(s)
    case Compute(next) => TapeEnds(core, next, tape);
    case Call(name, args) =>
      var (tape', reply) := TapeCall(core, tape, name, args);
      var s' := core.resume(s, reply);
      var key := (name, core.argsBytes(args));
      EndOfFirst(tape, key, CallsMade(core, s', tape'));
      if tape'.divergence.Some? {
        StaysDiverged(core, s', tape');
      } else {
        TapeEnds(core, s', tape');
      }
    case _ =>
  }
}
