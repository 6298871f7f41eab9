/** Assembling the source that is compiled, and reporting its errors against the
    agent's own lines. */
module Dialect {
  import opened Text

  /** The prelude as compiled: closed with a newline if it lacks one. */
  function Head(prelude: string): string
  {
    if EmptyOrEndsInNewline(prelude) then prelude else prelude + "\n"
  }

  function Assemble(prelude: string, program: string): string
  {
    Head(prelude) + program
  }

  function Offset(prelude: string): nat
  {
    Newlines(Head(prelude))
  }

  /** The 1-based line of a position in a text. */
  function LineOf(s: string, pos: nat): nat
    requires pos <= |s|
  {
    1 + Newlines(s[..pos])
  }

  /** A position is on a line past the offset exactly when it is in the program,
      and then the offset is what separates the two numberings. */
  lemma LineMapping(prelude: string, program: string, pos: nat)
    requires pos <= |Assemble(prelude, program)|
    ensures var source := Assemble(prelude, program);
            var start := |Head(prelude)|;
            && (LineOf(source, pos) > Offset(prelude) <==> pos >= start)
            && (pos >= start ==> LineOf(source, pos) - Offset(prelude) == LineOf(program, pos - start))
  {
    var head := Head(prelude);
    var source := Assemble(prelude, program);
    if pos >= |head| {
      assert source[..pos] == head + program[..pos - |head|];
      NewlinesConcat(head, program[..pos - |head|]);
    } else {
      assert source[..pos] == head[..pos];
      assert head == head[..pos] + head[pos..];
      NewlinesConcat(head[..pos], head[pos..]);
      assert head[pos..][|head| - pos - 1] == '\n';
    }
  }

  /** What the engine stores is what was compiled, and its line count is the
      compiler's offset. */
  lemma StoredSource(prelude: string, program: string)
    requires EmptyOrEndsInNewline(prelude)
    ensures prelude + program == Assemble(prelude, program)
    ensures Newlines(prelude) == Offset(prelude)
  {
  }

  /** The buffer that is compiled, and the line count taken before the program is
      added to it. An error's line minus that count is the program's own line. */
  method BuildSource(prelude: string, program: string) returns (source: string, offset: nat)
    ensures source == Assemble(prelude, program)
    ensures forall pos | |source| - |program| <= pos <= |source| ::
      LineOf(source, pos) - offset == LineOf(program, pos - (|source| - |program|))
    ensures forall pos | 0 <= pos < |source| - |program| :: LineOf(source, pos) <= offset
  {
    source := prelude;
    if source != "" && source[|source| - 1] != '\n' {
      source := source + "\n";
    }
    offset := Newlines(source);
    source := source + program;
    forall pos | 0 <= pos <= |source|
      ensures pos >= |source| - |program| ==> LineOf(source, pos) - offset == LineOf(program, pos - (|source| - |program|))
      ensures pos < |source| - |program| ==> LineOf(source, pos) <= offset
    {
      LineMapping(prelude, program, pos);
    }
  }

  /** Core's three ways of refusing or accepting a source. */
  datatype Compilation<+C> = Accepted(c: C) | At(line: nat, message: string) | Unverified(message: string)

  datatype Outcome<+C> = Program(c: C) | Lint(line: nat, message: string) | BrokenPrelude

  function CompileProgram<C>(compile: string -> Compilation<C>, prelude: string, program: string): Outcome<C>
  {
    match compile(Assemble(prelude, program))
    case Accepted(c) => Program(c)
    case At(line, message) =>
      if line <= Offset(prelude) then BrokenPrelude else Lint(line - Offset(prelude), message)
    case Unverified(message) => Lint(0, message)
  }

  /** An error core finds at a position of the program is a lint error at that
      position's own line; one in the prelude is never blamed on the program. */
  lemma LintAtOwnLine<C>(compile: string -> Compilation<C>, prelude: string, program: string, pos: nat, message: string)
    requires pos <= |Assemble(prelude, program)|
    requires compile(Assemble(prelude, program)) == At(LineOf(Assemble(prelude, program), pos), message)
    ensures CompileProgram(compile, prelude, program) ==
            if pos >= |Head(prelude)| then Lint(LineOf(program, pos - |Head(prelude)|), message) else BrokenPrelude
  {
    LineMapping(prelude, program, pos);
  }
}
