/** A whole run: the VM against the gateway host, one step at a time. */
module Run {
  import opened Text
  import opened Values
  import opened Core
  import opened Provenance
  import opened Downstream
  import opened Tracing
  import opened Host

  datatype RunState = RunState(vm: VmState, host: HostState, transcript: seq<Record>)

  function Begin(vm: VmState): RunState
  {
    RunState(vm, FRESH, [])
  }

  /** What core records for a call, given the host's state and reply: one
      record, unless a success cannot be canonicalised. */
  function RecordOf(core: Core, h: HostState, name: string, args: LuaTable, reply: Reply): Option<Record>
  {
    match reply
    case Err(e) => Some(Record(name, core.argsBytes(args), CallError, "", e, ""))
    case Ok(table) =>
      var blob := HostTake(h).1;
      match core.canonical(Table(table))
      case Refused(_) => None
      case Bytes(text) =>
        Some(Record(name, core.argsBytes(args), CallOk, text, "", if blob.Some? then blob.value else ""))
  }

  /** Core's side of a call: ask the host, take the attestation after a success,
      and record the call. */
  function MakeCall(env: Env, r: RunState, name: string, args: LuaTable, oracle: Oracle): RunState
  {
    var (h, reply) := HostCall(env, r.host, name, args, oracle);
    var record := RecordOf(env.core, h, name, args, reply);
    RunState(
      env.core.resume(r.vm, reply),
      if reply.Ok? then HostTake(h).0 else h,
      if record.Some? then r.transcript + [record.value] else r.transcript)
  }

  function Advance(env: Env, r: RunState, oracle: Oracle): RunState
  {
    match env.core.step(r.vm)
    case Compute(next) => r.(vm := next)
    case Call(name, args) => MakeCall(env, r, name, args, oracle)
    case _ => r
  }

  // ---------------------------------------------------------------------
  // What every reachable run state satisfies
  // ---------------------------------------------------------------------

  function Zip(records: seq<Record>, log: seq<(CallDecision, Tag)>): (entries: seq<Entry>)
    requires |records| == |log|
    ensures |entries| == |records|
    ensures forall i | 0 <= i < |entries| :: entries[i] == Entry(records[i], log[i].0, log[i].1)
  {
    if records == [] then []
    else
      Zip(records[..|records| - 1], log[..|log| - 1])
      + [Entry(records[|records| - 1], log[|log| - 1].0, log[|log| - 1].1)]
  }

  /** One entry of a trace. An allowed call's recorded arguments are permitted;
      a refused or failed call carries no provenance; and the attestation is
      empty or the tag's canonical bytes. */
  ghost predicate EntryOk(env: Env, e: Entry)
  {
    && (e.decision.Allowed? ==>
          env.core.parse(e.record.args).Some? && Permitted(env, e.record.name, env.core.parse(e.record.args).value))
    && (!e.decision.Allowed? ==> e.record.status.CallError?)
    && (e.record.status.CallError? ==> e.provenance.Unsigned?)
    && WellFormed(e.provenance) && e.record.attestation == Blob(e.provenance)
  }

  /** The request an entry stands for: an allowed call whose recorded arguments
      are an object (or null) was sent, once; any other call was not. */
  function Requests(core: Core, e: Entry): seq<Dispatch>
  {
    if !e.decision.Allowed? then []
    else
      match (SplitOnce(e.record.name), core.parse(e.record.args))
      case (Some((server, tool)), Some(Obj(members))) => [Dispatch(server, tool, Some(members))]
      case (Some((server, tool)), Some(Null)) => [Dispatch(server, tool, None)]
      case _ => []
  }

  function AllRequests(core: Core, entries: seq<Entry>): seq<Dispatch>
  {
    if entries == [] then []
    else AllRequests(core, entries[..|entries| - 1]) + Requests(core, entries[|entries| - 1])
  }

  /** Replaying from the start over any tape that begins with the transcript
      comes to this state, with exactly the transcript consumed. */
  ghost predicate Replays(core: Core, begin: VmState, r: RunState)
    requires Lawful(core)
  {
    forall tape: seq<Record> | r.transcript <= tape ::
      RunTape(core, begin, Tape(tape, 0, None)) == RunTape(core, r.vm, Tape(tape, |r.transcript|, None))
  }

  ghost predicate RunInv(env: Env, begin: VmState, r: RunState)
    requires ValidEnv(env)
  {
    && |r.transcript| == |r.host.log|
    && r.host.attestation.None?
    && (forall e | e in Zip(r.transcript, r.host.log) :: EntryOk(env, e))
    && r.host.dispatched == AllRequests(env.core, Zip(r.transcript, r.host.log))
    && Replays(env.core, begin, r)
  }

  lemma BeginInv(env: Env, begin: VmState)
    requires ValidEnv(env)
    ensures RunInv(env, begin, Begin(begin))
  {
  }

  lemma PermittedRequests(env: Env, name: string, json: Json, e: Entry)
    requires ValidEnv(env) && Permitted(env, name, json)
    requires e.decision.Allowed? && e.record.name == name && env.core.parse(e.record.args) == Some(json)
    ensures Sent(env.catalog, name, json) == Requests(env.core, e)
  {
    var tool :| tool in env.catalog.tools && QualifiedName(tool) == name;
    QualifiedNameSplits(env.catalog, tool);
    CataloguedToolRoutes(env.catalog, tool, json);
  }

  /** The entry a logged call makes, and what a tape made from it answers. */
  lemma LoggedEntry(env: Env, h: HostState, name: string, args: LuaTable, h': HostState, reply: Reply)
    requires ValidEnv(env) && Logged(env, h, name, args, h', reply)
    ensures var record := RecordOf(env.core, h', name, args, reply);
            && record.Some?
            && CallKey(record.value) == (name, env.core.argsBytes(args))
            && Recorded(env.core, record.value) == reply
            && (reply.Err? ==> h'.attestation.None?)
            && var e := Entry(record.value, h'.log[|h.log|].0, h'.log[|h.log|].1);
               EntryOk(env, e) && h'.dispatched == h.dispatched + Requests(env.core, e)
  {
    var record := RecordOf(env.core, h', name, args, reply).value;
    var e := Entry(record, h'.log[|h.log|].0, h'.log[|h.log|].1);
    var gate := Examine(env, name, args);
    if gate.Pass? {
      ExamineExact(env, name, args, gate.args);
      assert env.core.parse(record.args) == Some(gate.args);
      PermittedRequests(env, name, gate.args, e);
    }
  }

  lemma ZipExtends(records: seq<Record>, log: seq<(CallDecision, Tag)>, records': seq<Record>, log': seq<(CallDecision, Tag)>)
    requires |records| == |log| && |records'| == |log'| == |records| + 1
    requires records'[..|records|] == records && log'[..|log|] == log
    ensures Zip(records', log')
         == Zip(records, log) + [Entry(records'[|records|], log'[|log|].0, log'[|log|].1)]
  {
  }

  /** A tape that answers a call from its record brings the VM to the same state. */
  lemma RecordReplays(
    core: Core, begin: VmState, r: RunState, name: string, args: LuaTable, record: Record, reply: Reply, r': RunState)
    requires Lawful(core) && Replays(core, begin, r) && core.step(r.vm) == Call(name, args)
    requires CallKey(record) == (name, core.argsBytes(args)) && Recorded(core, record) == reply
    requires r'.transcript == r.transcript + [record] && r'.vm == core.resume(r.vm, reply)
    ensures Replays(core, begin, r')
  {
    forall tape: seq<Record> | r'.transcript <= tape
      ensures RunTape(core, begin, Tape(tape, 0, None)) == RunTape(core, r'.vm, Tape(tape, |r'.transcript|, None))
    {
      assert r.transcript == r'.transcript[..|r.transcript|] <= tape;
      assert tape[|r.transcript|] == r'.transcript[|r.transcript|] == record;
      assert TapeCall(core, Tape(tape, |r.transcript|, None), name, args)
          == (Tape(tape, |r'.transcript|, None), reply);
    }
  }

  /** One more record and log entry, both of one call, keep the two in line. */
  lemma EntriesExtend(env: Env, r: RunState, r': RunState, record: Record)
    requires ValidEnv(env) && |r.transcript| == |r.host.log| && |r'.host.log| == |r.host.log| + 1
    requires forall e | e in Zip(r.transcript, r.host.log) :: EntryOk(env, e)
    requires r.host.dispatched == AllRequests(env.core, Zip(r.transcript, r.host.log))
    requires r'.transcript == r.transcript + [record] && r'.host.log[..|r.host.log|] == r.host.log
    requires var e := Entry(record, r'.host.log[|r.host.log|].0, r'.host.log[|r.host.log|].1);
             EntryOk(env, e) && r'.host.dispatched == r.host.dispatched + Requests(env.core, e)
    ensures |r'.transcript| == |r'.host.log|
    ensures var entries := Zip(r'.transcript, r'.host.log);
            (forall e | e in entries :: EntryOk(env, e)) && r'.host.dispatched == AllRequests(env.core, entries)
  {
    ZipExtends(r.transcript, r.host.log, r'.transcript, r'.host.log);
    var entries := Zip(r'.transcript, r'.host.log);
    assert entries[..|entries| - 1] == Zip(r.transcript, r.host.log);
  }

  lemma CallKeepsInv(env: Env, begin: VmState, r: RunState, name: string, args: LuaTable, oracle: Oracle)
    requires ValidEnv(env) && RunInv(env, begin, r) && env.core.step(r.vm) == Call(name, args)
    ensures RunInv(env, begin, MakeCall(env, r, name, args, oracle))
  {
    var (h, reply) := HostCall(env, r.host, name, args, oracle);
    CallFacts(env, r.host, name, args, oracle);
    LoggedEntry(env, r.host, name, args, h, reply);
    var record := RecordOf(env.core, h, name, args, reply).value;
    var r' := MakeCall(env, r, name, args, oracle);
    EntriesExtend(env, r, r', record);
    RecordReplays(env.core, begin, r, name, args, record, reply, r');
  }

  /** Every step keeps the run's invariant, whatever the downstreams answer. */
  lemma AdvanceKeepsInv(env: Env, begin: VmState, r: RunState, oracle: Oracle)
    requires ValidEnv(env) && RunInv(env, begin, r)
    ensures RunInv(env, begin, Advance(env, r, oracle))
  {
    var core := env.core;
    match core.step(r.vm)
    case Call(name, args) => CallKeepsInv(env, begin, r, name, args, oracle);
    case Compute(next) =>
      forall tape: seq<Record> | r.transcript <= tape
        ensures RunTape(core, begin, Tape(tape, 0, None)) == RunTape(core, next, Tape(tape, |r.transcript|, None))
      {
        assert RunTape(core, r.vm, Tape(tape, |r.transcript|, None)) == RunTape(core, next, Tape(tape, |r.transcript|, None));
      }
    case _ =>
  }

  /** A halted run, replayed over its own transcript, halts in the same state
      having followed the tape to its end. */
  lemma HaltedReplays(env: Env, begin: VmState, r: RunState)
    requires ValidEnv(env) && RunInv(env, begin, r) && Halted(env.core, r.vm)
    ensures RunTape(env.core, begin, Tape(r.transcript, 0, None))
         == (r.vm, Tape(r.transcript, |r.transcript|, None))
  {
    assert r.transcript <= r.transcript;
  }

  // ---------------------------------------------------------------------
  // The run as the engine performs it
  // ---------------------------------------------------------------------

  /** Core's side of one call, on the host object. */
  method AskHost(
    host: GatewayHost, vm: VmState, transcript: seq<Record>, name: string, args: LuaTable, oracle: Oracle)
    returns (vm': VmState, transcript': seq<Record>)
    modifies host
    ensures RunState(vm', host.State(), transcript')
         == MakeCall(host.env, RunState(vm, old(host.State()), transcript), name, args, oracle)
  {
    var core := host.env.core;
    transcript' := transcript;
    var reply := host.CallTool(name, args, oracle);
    vm' := core.resume(vm, reply);
    match reply
    case Err(e) =>
      transcript' := transcript + [Record(name, core.argsBytes(args), CallError, "", e, "")];
    case Ok(table) =>
      var blob := host.TakeAttestation();
      var canon := core.canonical(Table(table));
      if canon.Bytes? {
        transcript' := transcript + [Record(name, core.argsBytes(args), CallOk, canon.text, "",
                                            if blob.Some? then blob.value else "")];
      }
  }

  lemma AdvanceMetered(env: Env, r: RunState, oracle: Oracle)
    requires Lawful(env.core) && !Halted(env.core, r.vm)
    ensures env.core.fuel(Advance(env, r, oracle).vm) < env.core.fuel(r.vm)
  {
  }

  /** The halted state a run comes to, against downstreams that answer as
      `oracle` does. */
  ghost function Complete(env: Env, r: RunState, oracle: Oracle): RunState
    requires ValidEnv(env)
    decreases env.core.fuel(r.vm)
  {
    if Halted(env.core, r.vm) then r
    else
      AdvanceMetered(env, r, oracle);
      Complete(env, Advance(env, r, oracle), oracle)
  }

  lemma {:induction false} CompleteKeepsInv(env: Env, begin: VmState, r: RunState, oracle: Oracle)
    requires ValidEnv(env) && RunInv(env, begin, r)
    ensures var last := Complete(env, r, oracle); RunInv(env, begin, last) && Halted(env.core, last.vm)
    decreases env.core.fuel(r.vm)
  {
    if Halted(env.core, r.vm) {
    } else {
      var next := Advance(env, r, oracle);
      AdvanceMetered(env, r, oracle);
      AdvanceKeepsInv(env, begin, r, oracle);
      CompleteKeepsInv(env, begin, next, oracle);
    }
  }

  /** Every program comes to a halted state that satisfies the run's invariant. */
  lemma RunCompletes(env: Env, begin: VmState, oracle: Oracle)
    requires ValidEnv(env)
    ensures var last := Complete(env, Begin(begin), oracle); RunInv(env, begin, last) && Halted(env.core, last.vm)
  {
    BeginInv(env, begin);
    CompleteKeepsInv(env, begin, Begin(begin), oracle);
  }

  /** Runs a program to its end on a host object, then pairs core's transcript
      with the host's log. The length check before pairing cannot fail. */
  method RunProgram(env: Env, begin: VmState, lines: Lines, preludeLines: nat, max: nat, oracle: Oracle)
    returns (entries: seq<Entry>, footer: Footer)
    requires ValidEnv(env)
    ensures var last := Complete(env, Begin(begin), oracle);
            && |last.transcript| == |last.host.log| && entries == Zip(last.transcript, last.host.log)
            && Halted(env.core, last.vm) && footer == FooterOf(env.core, lines, preludeLines, max, last.vm)
  {
    var core := env.core;
    var host := new GatewayHost(env);
    var vm, transcript := begin, [];
    RunCompletes(env, begin, oracle);
    while !Halted(core, vm)
      invariant fresh(host) && host.env == env
      invariant Complete(env, RunState(vm, host.State(), transcript), oracle) == Complete(env, Begin(begin), oracle)
      decreases core.fuel(vm)
    {
      match core.step(vm)
      case Compute(next) =>
        vm := next;
      case Call(name, args) =>
        vm, transcript := AskHost(host, vm, transcript, name, args, oracle);
    }
    assert |transcript| == |host.log|;
    entries := Zip(transcript, host.log);
    footer := FooterOf(core, lines, preludeLines, max, vm);
  }
}
