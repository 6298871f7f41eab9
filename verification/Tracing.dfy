/** The signed per-run trace, and how a halted run becomes its footer. */
module Tracing {
  import opened Text
  import opened Values
  import opened Core
  import opened Provenance

  datatype CallDecision =
    | Allowed
    | RejectedBySchema(reason: string)
    | DeniedByPolicy(reason: string)

  datatype Entry = Entry(record: Record, decision: CallDecision, provenance: Tag)

  datatype Header = Header(
    traceId: string, session: Option<string>, principal: string, programHash: string,
    policyHash: string, descriptionHash: string, vmConfig: VmSettings, request: Option<string>)

  datatype RunStatus = RunOk | RunError(kind: string, message: string)

  datatype Footer = Footer(
    output: Option<string>, status: RunStatus, gasUsed: nat, memoryUsed: nat, signature: string)

  datatype Trace = Trace(header: Header, entries: seq<Entry>, footer: Footer)

  // ---------------------------------------------------------------------
  // Status
  // ---------------------------------------------------------------------

  function ErrorStatus(e: VmError, preludeLines: nat): RunStatus
  {
    match e
    case WithLine(line, inner) =>
      var status := ErrorStatus(inner, preludeLines);
      (match status
       case RunError(kind, message) =>
         RunError(kind, if line > preludeLines then "line " + Digits(line - preludeLines) + ": " + message else message)
       case RunOk => RunOk)
    case GasExhausted => RunError("GasExhausted", "gas exhausted")
    case MemoryExhausted => RunError("MemoryExhausted", "memory exhausted")
    case CallDepthExceeded => RunError("CallDepthExceeded", "call depth exceeded")
    case TypeError(m) => RunError("TypeError", m)
    case RuntimeError(m) => RunError("RuntimeError", m)
    case ToolError(m) => RunError("ToolError", m)
    case OutputExceeded => RunError("OutputExceeded", "output exceeded")
  }

  function StatusKind(status: RunStatus): string
  {
    match status
    case RunOk => "ok"
    case RunError(kind, _) => kind
  }

  /** The status is an error whose kind is the innermost variant, whatever the
      line wrappers and the prelude offset. */
  lemma {:induction false} KindIgnoresLines(e: VmError, preludeLines: nat)
    ensures ErrorStatus(e, preludeLines).RunError?
    ensures StatusKind(ErrorStatus(e, preludeLines)) == Kind(e)
  {
    match e
    case WithLine(_, inner) => KindIgnoresLines(inner, preludeLines);
    case _ =>
  }

  function AtLine(status: RunStatus, line: nat): RunStatus
    requires status.RunError?
  {
    status.(message := "line " + Digits(line) + ": " + status.message)
  }

  /** A wrapper's line counts from the end of the prelude; one in the prelude is
      dropped. */
  lemma WrappedStatus(line: nat, e: VmError, preludeLines: nat)
    ensures ErrorStatus(e, preludeLines).RunError?
    ensures ErrorStatus(WithLine(line, e), preludeLines)
         == if line > preludeLines then AtLine(ErrorStatus(e, preludeLines), line - preludeLines)
            else ErrorStatus(e, preludeLines)
  {
    KindIgnoresLines(e, preludeLines);
  }

  // ---------------------------------------------------------------------
  // Footer
  // ---------------------------------------------------------------------

  function OutputJson(core: Core, value: LuaValue, max: nat): Canon
  {
    match core.canonical(value)
    case Refused(e) => Refused(e)
    case Bytes(text) => if |text| > max then Refused(OutputExceeded) else Bytes(text)
  }

  predicate Halted(core: Core, s: VmState)
  {
    core.step(s).Return? || core.step(s).Raise?
  }

  /** The unsigned footer of a run that halted in `s`. The engine and the replay
      use the same mapping, with their own line table and offset. */
  function FooterOf(core: Core, lines: Lines, preludeLines: nat, max: nat, s: VmState): Footer
    requires Halted(core, s)
  {
    var (output, status) :=
      match core.step(s)
      case Return(value) =>
        (match OutputJson(core, value, max)
         case Bytes(text) => (Some(text), RunOk)
         case Refused(e) => (None, ErrorStatus(e, preludeLines)))
      case _ => (None, ErrorStatus(core.raised(lines, s), preludeLines));
    Footer(output, status, core.gas(s), core.memory(s), "")
  }

  /** A footer has an output exactly when its status is ok, and the output is the
      canonical form of the value returned, within the limit. A value over the
      limit is an error of its own kind. */
  lemma FooterExact(core: Core, lines: Lines, preludeLines: nat, max: nat, s: VmState)
    requires Halted(core, s)
    ensures var footer := FooterOf(core, lines, preludeLines, max, s);
            && (footer.output.Some? <==> footer.status.RunOk?)
            && (forall text :: footer.output == Some(text) <==>
                  core.step(s).Return? && core.canonical(core.step(s).value) == Bytes(text) && |text| <= max)
            && (core.step(s).Return? && core.canonical(core.step(s).value).Bytes? && footer.output.None? ==>
                  StatusKind(footer.status) == "OutputExceeded")
            && (core.step(s).Raise? ==> StatusKind(footer.status) == Kind(core.raised(lines, s)))
  {
    if core.step(s).Raise? {
      KindIgnoresLines(core.raised(lines, s), preludeLines);
    } else {
      var out := OutputJson(core, core.step(s).value, max);
      if out.Refused? {
        KindIgnoresLines(out.error, preludeLines);
      }
    }
  }

  /** The run returned a value whose canonical form is `text`, within the limit. */
  predicate Outputs(core: Core, s: VmState, max: nat, text: string)
  {
    && core.step(s).Return? && core.canonical(core.step(s).value) == Bytes(text) && |text| <= max
  }

  /** The kind of ending: `ok`, or the variant of the error. */
  function Ending(core: Core, lines: Lines, s: VmState, max: nat): string
  {
    if core.step(s).Return? then
      match core.canonical(core.step(s).value)
      case Refused(e) => Kind(e)
      case Bytes(text) => if |text| <= max then "ok" else "OutputExceeded"
    else Kind(core.raised(lines, s))
  }

  /** A footer tells how the halted run ended, in every field. */
  ghost predicate Tells(core: Core, lines: Lines, s: VmState, max: nat, footer: Footer)
  {
    && (forall text :: footer.output == Some(text) <==> Outputs(core, s, max, text))
    && StatusKind(footer.status) == Ending(core, lines, s, max)
    && (footer.status.RunOk? <==> footer.output.Some?)
    && footer.gasUsed == core.gas(s) && footer.memoryUsed == core.memory(s)
  }

  lemma FooterTells(core: Core, lines: Lines, preludeLines: nat, max: nat, s: VmState)
    requires Halted(core, s)
    ensures Tells(core, lines, s, max, FooterOf(core, lines, preludeLines, max, s))
  {
    FooterExact(core, lines, preludeLines, max, s);
    if core.step(s).Return? && core.canonical(core.step(s).value).Refused? {
      KindIgnoresLines(core.canonical(core.step(s).value).error, preludeLines);
    }
  }

  /** Without a line wrapper the message is the error's own. */
  lemma BareMessage(message: string, preludeLines: nat)
    ensures ErrorStatus(TypeError(message), preludeLines) == RunError("TypeError", message)
    ensures ErrorStatus(RuntimeError(message), preludeLines) == RunError("RuntimeError", message)
    ensures ErrorStatus(ToolError(message), preludeLines) == RunError("ToolError", message)
    ensures ErrorStatus(GasExhausted, preludeLines) == RunError("GasExhausted", "gas exhausted")
    ensures ErrorStatus(MemoryExhausted, preludeLines) == RunError("MemoryExhausted", "memory exhausted")
    ensures ErrorStatus(CallDepthExceeded, preludeLines) == RunError("CallDepthExceeded", "call depth exceeded")
    ensures ErrorStatus(OutputExceeded, preludeLines) == RunError("OutputExceeded", "output exceeded")
  {
  }

  /** What replay compares. */
  predicate SameRun(a: Footer, b: Footer)
  {
    a.output == b.output && StatusKind(a.status) == StatusKind(b.status)
    && a.gasUsed == b.gasUsed && a.memoryUsed == b.memoryUsed
  }

  /** Line tables and offsets never change what replay compares. */
  lemma FooterIgnoresLines(core: Core, l: Lines, m: Lines, p: nat, q: nat, max: nat, s: VmState)
    requires Lawful(core) && Halted(core, s)
    ensures SameRun(FooterOf(core, l, p, max, s), FooterOf(core, m, q, max, s))
  {
    if core.step(s).Return? {
      var out := OutputJson(core, core.step(s).value, max);
      if out.Refused? {
        KindIgnoresLines(out.error, p);
        KindIgnoresLines(out.error, q);
      }
    } else {
      KindIgnoresLines(core.raised(l, s), p);
      KindIgnoresLines(core.raised(m, s), q);
      assert Kind(core.raised(l, s)) == Kind(core.raised(m, s));
    }
  }

  function Records(entries: seq<Entry>): (records: seq<Record>)
    ensures |records| == |entries| && forall i | 0 <= i < |entries| :: records[i] == entries[i].record
  {
    if entries == [] then [] else [entries[0].record] + Records(entries[1..])
  }

  // ---------------------------------------------------------------------
  // Signing
  // ---------------------------------------------------------------------

  type Key(!new, 00)

  /** Hashing, signing (Ed25519, section 5.1 of RFC 8032) and the JSON of a
      trace, as the laws below describe them. */
  datatype Crypto = Crypto(
    textHash: string -> string,
    digest: Trace -> string,
    signature: (Key, string) -> string,
    verifies: (Key, string, string) -> bool,
    toJson: Trace -> string,
    fromJson: string -> Option<Trace>)

  ghost predicate Sound(crypto: Crypto)
  {
    && (forall a, b :: crypto.textHash(a) == crypto.textHash(b) ==> a == b)
    && (forall a :: ValidKey(crypto.textHash(a)))
    && (forall k, d :: crypto.verifies(k, d, crypto.signature(k, d)))
    && (forall t: Trace :: crypto.fromJson(crypto.toJson(t)) == Some(t))
  }

  /** A signature is good for one key and one digest only, and the digest is
      collision-free: the ideal that Ed25519 over SHA-256 stands for. */
  ghost predicate Unforgeable(crypto: Crypto)
  {
    && (forall a: Trace, b: Trace :: crypto.digest(a) == crypto.digest(b) ==> a == b)
    && (forall k, d, k', d', s :: crypto.verifies(k, d, s) && crypto.verifies(k', d', s) ==> k == k' && d == d')
  }

  function WithoutSignature(t: Trace): Trace
  {
    t.(footer := t.footer.(signature := ""))
  }

  function Sign(crypto: Crypto, key: Key, t: Trace): Trace
  {
    t.(footer := t.footer.(signature := crypto.signature(key, crypto.digest(WithoutSignature(t)))))
  }

  predicate Verifies(crypto: Crypto, key: Key, t: Trace)
  {
    crypto.verifies(key, crypto.digest(WithoutSignature(t)), t.footer.signature)
  }

  /** A signed trace verifies, and signing it again changes nothing. */
  lemma SignedVerifies(crypto: Crypto, key: Key, t: Trace)
    requires Sound(crypto)
    ensures Verifies(crypto, key, Sign(crypto, key, t))
    ensures Sign(crypto, key, Sign(crypto, key, t)) == Sign(crypto, key, t)
  {
    assert WithoutSignature(Sign(crypto, key, t)) == WithoutSignature(t);
  }

  /** A signature determines the key and every other byte of the trace. */
  lemma SignatureBinds(crypto: Crypto, k: Key, a: Trace, k': Key, b: Trace)
    requires Unforgeable(crypto) && Verifies(crypto, k, a) && Verifies(crypto, k', b)
    requires a.footer.signature == b.footer.signature
    ensures k == k' && a == b
  {
    var x, y := WithoutSignature(a), WithoutSignature(b);
    assert crypto.digest(x) == crypto.digest(y);
    assert a == x.(footer := x.footer.(signature := a.footer.signature));
    assert b == y.(footer := y.footer.(signature := b.footer.signature));
  }

  /** Under a trace's signature nothing but that trace verifies, and it verifies
      with no other key. */
  lemma TamperDetected(crypto: Crypto, key: Key, signed: Trace, k: Key, t: Trace)
    requires Sound(crypto) && Unforgeable(crypto)
    requires t.footer.signature == Sign(crypto, key, signed).footer.signature
    ensures Verifies(crypto, k, t) <==> k == key && t == Sign(crypto, key, signed)
  {
    SignedVerifies(crypto, key, signed);
    if Verifies(crypto, k, t) {
      SignatureBinds(crypto, key, Sign(crypto, key, signed), k, t);
    }
  }
}
