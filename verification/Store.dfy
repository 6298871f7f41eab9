/** The trace store: keys, paths, and the steps of one write. */
module Store {
  import opened Text
  import opened Chains

  datatype Dir = Traces | Programs | Descriptions

  datatype Path = Path(dir: Dir, name: string)

  /** Every file under the store directory, by path. */
  type Files = map<Path, string>

  function Suffix(dir: Dir): string
  {
    match dir
    case Traces => ".json"
    case Programs => ".lua"
    case Descriptions => ".txt"
  }

  function KeyPath(dir: Dir, key: string): Path
  {
    Path(dir, key + Suffix(dir))
  }

  function FindKeyPath(dir: Dir, key: string): Result<Path>
  {
    if ValidKey(key) then Ok(KeyPath(dir, key)) else Err("invalid store key")
  }

  function TempPath(dir: Dir, pid: nat, n: nat): Path
  {
    Path(dir, ".tmp-" + Digits(pid) + "-" + Digits(n))
  }

  predicate IsTemp(p: Path)
  {
    p.name != [] && p.name[0] == '.'
  }

  lemma AppendInjective(a: string, b: string, suffix: string)
    requires a + suffix == b + suffix
    ensures a == b
  {
    assert |a| == |b|;
    assert a == (a + suffix)[..|a|] && b == (b + suffix)[..|b|];
  }

  /** Key paths are distinct for distinct keys, stay inside their directory, and
      are never temp paths. */
  lemma KeyPaths(dir: Dir, key: string, dir': Dir, key': string)
    ensures KeyPath(dir, key) == KeyPath(dir', key') <==> dir == dir' && key == key'
    ensures ValidKey(key) ==> !IsTemp(KeyPath(dir, key)) && '/' !in KeyPath(dir, key).name
  {
    if KeyPath(dir, key) == KeyPath(dir', key') {
      AppendInjective(key, key', Suffix(dir));
    }
    if ValidKey(key) {
      assert KeyChar(key[0]);
      var name := KeyPath(dir, key).name;
      forall i | 0 <= i < |name| ensures name[i] != '/' {
        assert i < |key| ==> KeyChar(name[i]);
        assert i >= |key| ==> name[i] == Suffix(dir)[i - |key|];
      }
    }
  }

  /** Distinct process ids and counter values give distinct temp paths, none of
      them a key path. */
  lemma TempPaths(dir: Dir, pid: nat, n: nat, dir': Dir, pid': nat, n': nat)
    ensures IsTemp(TempPath(dir, pid, n))
    ensures TempPath(dir, pid, n) == TempPath(dir', pid', n') <==> dir == dir' && pid == pid' && n == n'
  {
    var a, b := TempPath(dir, pid, n).name, TempPath(dir', pid', n').name;
    assert a == ".tmp-" + (Digits(pid) + ("-" + Digits(n)));
    assert b == ".tmp-" + (Digits(pid') + ("-" + Digits(n')));
    if a == b {
      assert a[5..] == Digits(pid) + ("-" + Digits(n)) && b[5..] == Digits(pid') + ("-" + Digits(n'));
      DigitsPrefix(pid, "-" + Digits(n), pid', "-" + Digits(n'));
      assert ("-" + Digits(n))[1..] == Digits(n) && ("-" + Digits(n'))[1..] == Digits(n');
      ReadDigitsInverts(n);
      ReadDigitsInverts(n');
    }
  }

  // ---------------------------------------------------------------------
  // One write, step by step
  // ---------------------------------------------------------------------

  /** Looking at the target; a temp name chosen; the temp file open with some of
      the content written. */
  datatype Put = Look | Named(tmp: Path) | Open(tmp: Path, written: nat)

  datatype PutEnd = Stored | Conflict | IoError

  datatype PutState = Busy(put: Put) | Ended(end: PutEnd)

  /** A content-addressed put accepts a target that already holds its content; a
      trace put accepts no existing target. */
  datatype Mode = Addressed | Unique

  /** The temp file an unfinished put holds, as a set. */
  function Holds(put: Put): set<Path>
  {
    if put.Look? then {} else {put.tmp}
  }

  /** One step of `put_content_addressed`, `put_trace` and `write_atomic`.
      `taken` are the temp paths other writers hold. A read, create, write or
      rename may fail at any point; the temp path is then removed if it can be. */
  ghost predicate PutNext(
    files: Files, put: Put, target: Path, content: string, mode: Mode, taken: set<Path>,
    files': Files, next: PutState)
  {
    match put
    case Look =>
      && files' == files
      && (|| next == Ended(IoError)
          || (target in files && next ==
                Ended(if mode.Addressed? && files[target] == content then Stored else Conflict))
          || (target !in files && exists pid, n ::
                next == Busy(Named(TempPath(target.dir, pid, n))) && TempPath(target.dir, pid, n) !in taken))
    case Named(tmp) =>
      || (next == Ended(IoError) && (files' == files || files' == files - {tmp}))
      || (tmp !in files && files' == files[tmp := ""] && next == Busy(Open(tmp, 0)))
    case Open(tmp, n) =>
      || (next == Ended(IoError) && (files' == files || files' == files - {tmp}))
      || (tmp in files && exists m ::
            n < m <= |content| && files' == files[tmp := content[..m]] && next == Busy(Open(tmp, m)))
      || (tmp in files && n == |content| && files' == (files - {tmp})[target := files[tmp]] && next == Ended(Stored))
  }

  /** The open temp file holds exactly the part written so far. */
  ghost predicate PutOk(files: Files, put: Put, content: string)
  {
    && (forall p | p in Holds(put) :: IsTemp(p))
    && (put.Open? ==> put.written <= |content| && put.tmp in files && files[put.tmp] == content[..put.written])
  }

  ghost predicate SameAt(files: Files, files': Files, p: Path)
  {
    (p in files <==> p in files') && (p in files ==> files[p] == files'[p])
  }

  /** No visible file is changed, and none is added but the targets. */
  ghost predicate Untouched(files: Files, files': Files, targets: set<Path>)
  {
    forall p | !IsTemp(p) && (p in files || p !in targets) :: SameAt(files, files', p)
  }

  lemma UntouchedTwice(files: Files, files': Files, files'': Files, a: set<Path>, b: set<Path>)
    requires Untouched(files, files', a) && Untouched(files', files'', b)
    ensures Untouched(files, files'', a + b)
  {
    forall p | !IsTemp(p) && (p in files || p !in a + b) ensures SameAt(files, files'', p) {
      assert SameAt(files, files', p) && SameAt(files', files'', p);
    }
  }

  /** A step touches only its temp file and its target, and the target only ever
      changes to the whole content. */
  lemma PutEffect(
    files: Files, put: Put, target: Path, content: string, mode: Mode, taken: set<Path>,
    files': Files, next: PutState)
    requires PutOk(files, put, content) && !IsTemp(target)
    requires PutNext(files, put, target, content, mode, taken, files', next)
    ensures forall p | p != target && p !in Holds(put) :: SameAt(files, files', p)
    ensures SameAt(files, files', target) || (target in files' && files'[target] == content)
    ensures next.Busy? ==> SameAt(files, files', target)
    ensures next.Busy? ==> PutOk(files', next.put, content) && (Holds(next.put) == Holds(put) || Holds(next.put) !! taken)
    ensures next == Ended(Stored) ==> target in files' && files'[target] == content
    ensures next == Ended(Conflict) ==> target in files && files' == files
  {
    if next.Busy? && put.Look? {
      var pid, n :| next == Busy(Named(TempPath(target.dir, pid, n)));
      TempPaths(target.dir, pid, n, target.dir, pid, n);
    }
    if put.Open? && put.written == |content| {
      assert content[..put.written] == content;
    }
  }

  // ---------------------------------------------------------------------
  // Whole writes
  // ---------------------------------------------------------------------

  ghost predicate TrailStep(
    target: Path, content: string, mode: Mode, taken: set<Path>, a: (Files, PutState), b: (Files, PutState))
  {
    a.1.Busy? && PutNext(a.0, a.1.put, target, content, mode, taken, b.0, b.1)
  }

  ghost function PutSteps(
    target: Path, content: string, mode: Mode, taken: set<Path>): ((Files, PutState), (Files, PutState)) -> bool
  {
    (a, b) => TrailStep(target, content, mode, taken, a, b)
  }

  /** A put's successive states, each a step from the one before. */
  ghost predicate Trail(target: Path, content: string, mode: Mode, taken: set<Path>, trail: seq<(Files, PutState)>)
  {
    Linked(PutSteps(target, content, mode, taken), trail)
  }

  lemma TrailExtends(
    target: Path, content: string, mode: Mode, taken: set<Path>, trail: seq<(Files, PutState)>, next: (Files, PutState))
    requires trail != [] && Trail(target, content, mode, taken, trail)
    requires trail[|trail| - 1].1.Busy?
    requires PutNext(trail[|trail| - 1].0, trail[|trail| - 1].1.put, target, content, mode, taken, next.0, next.1)
    ensures Trail(target, content, mode, taken, trail + [next])
  {
    LinkedAppend(PutSteps(target, content, mode, taken), trail, next);
  }

  /** From a free temp name, creating, writing and renaming store the content. */
  lemma WriteTrail(files: Files, tmp: Path, target: Path, content: string, mode: Mode, taken: set<Path>)
    returns (trail: seq<(Files, PutState)>)
    requires IsTemp(tmp) && !IsTemp(target) && tmp !in files
    ensures trail != [] && Trail(target, content, mode, taken, trail)
    ensures trail[0] == (files, Busy(Named(tmp)))
    ensures trail[|trail| - 1] == (files[target := content], Ended(Stored))
  {
    var created := files[tmp := ""];
    trail := [(files, Busy(Named(tmp)))];
    TrailExtends(target, content, mode, taken, trail, (created, Busy(Open(tmp, 0))));
    trail := trail + [(created, Busy(Open(tmp, 0)))];
    var written := files[tmp := content];
    if content == "" {
      assert written == created;
    } else {
      assert content[..|content|] == content && created[tmp := content] == written;
      TrailExtends(target, content, mode, taken, trail, (written, Busy(Open(tmp, |content|))));
      trail := trail + [(written, Busy(Open(tmp, |content|)))];
    }
    assert (written - {tmp})[target := content] == files[target := content];
    TrailExtends(target, content, mode, taken, trail, (files[target := content], Ended(Stored)));
    trail := trail + [(files[target := content], Ended(Stored))];
  }

  /** The target is stored, or the temp name that a put of it would use is free. */
  predicate Clear(files: Files, target: Path, pid: nat, n: nat)
  {
    target in files || TempPath(target.dir, pid, n) !in files
  }

  /** The counter after a put that started with `n`. */
  function Uses(files: Files, target: Path, n: nat): nat
  {
    if target in files then n else n + 1
  }

  /** How a put nobody disturbs ends when no file operation fails of itself. A
      temp file already under its name fails it, and is removed. */
  function PutOutcome(files: Files, target: Path, content: string, mode: Mode, pid: nat, n: nat): (Files, PutEnd)
  {
    var tmp := TempPath(target.dir, pid, n);
    if target in files then (files, if mode.Addressed? && files[target] == content then Stored else Conflict)
    else if tmp in files then (files - {tmp}, IoError)
    else (files[target := content], Stored)
  }

  /** A step in which no file operation fails of itself, by a process that takes
      its temp names from `pid` and the counter `n`. */
  ghost predicate Proceeds(
    files: Files, put: Put, target: Path, pid: nat, n: nat, files': Files, next: PutState, n': nat)
  {
    match put
    case Look =>
      && next != Ended(IoError)
      && if next.Busy? then next == Busy(Named(TempPath(target.dir, pid, n))) && n' == n + 1 else n' == n
    case Named(tmp) => n' == n && (next == Ended(IoError) ==> tmp in files && files' == files - {tmp})
    case Open(_, _) => n' == n && next != Ended(IoError)
  }

  /** A put's temp file is in its target's directory. */
  predicate Beside(put: Put, target: Path)
  {
    put.Look? || put.tmp.dir == target.dir
  }

  lemma OutcomeElsewhere(files: Files, target: Path, content: string, mode: Mode, pid: nat, n: nat)
    ensures var (files', end) := PutOutcome(files, target, content, mode, pid, n);
            && (forall p: Path | p.dir != target.dir :: SameAt(files, files', p))
            && (!end.IoError? ==> target in files') && (end.IoError? <==> !Clear(files, target, pid, n))
            && (!end.IoError? ==> forall p: Path | p != target :: SameAt(files, files', p))
            && (mode.Unique? ==> (end == Stored <==> target !in files && Clear(files, target, pid, n)))
  {
  }

  /** The whole content goes into a created temp file in one step, and its rename
      is the next. */
  lemma WriteAndRename(files: Files, tmp: Path, target: Path, content: string, mode: Mode, taken: set<Path>)
    requires tmp !in files && tmp != target
    ensures content != "" ==>
      PutNext(files[tmp := ""], Open(tmp, 0), target, content, mode, taken, files[tmp := content], Busy(Open(tmp, |content|)))
    ensures PutNext(
      files[tmp := content], Open(tmp, |content|), target, content, mode, taken, files[target := content], Ended(Stored))
  {
    assert content[..|content|] == content && files[tmp := ""][tmp := content] == files[tmp := content];
    assert (files[tmp := content] - {tmp})[target := content] == files[target := content];
  }

  /** A step leaves every other directory alone. */
  lemma OtherDirs(
    files: Files, put: Put, target: Path, content: string, mode: Mode, taken: set<Path>, files': Files, next: PutState)
    requires Beside(put, target) && PutNext(files, put, target, content, mode, taken, files', next)
    ensures forall p: Path | p.dir != target.dir :: SameAt(files, files', p)
    ensures next.Busy? ==> Beside(next.put, target)
  {
  }

  /** A step before a trail makes a longer trail. */
  lemma TrailJoins(
    target: Path, content: string, mode: Mode, taken: set<Path>, files: Files, put: Put, rest: seq<(Files, PutState)>)
    requires rest != [] && Trail(target, content, mode, taken, rest)
    requires PutNext(files, put, target, content, mode, taken, rest[0].0, rest[0].1)
    ensures Trail(target, content, mode, taken, [(files, Busy(put))] + rest)
  {
    var first := [(files, Busy(put)), rest[0]];
    LinkedJoin(PutSteps(target, content, mode, taken), first, rest);
    assert first + rest[1..] == [(files, Busy(put))] + rest;
  }

  // ---------------------------------------------------------------------
  // The write as one process performs it
  // ---------------------------------------------------------------------

  /** No other writer holds a temp name this process has yet to use. */
  ghost predicate Unheld(taken: set<Path>, pid: nat, counter: nat)
  {
    forall dir, n | n >= counter :: TempPath(dir, pid, n) !in taken
  }

  class TraceStore {
    var files: Files
    const pid: nat
    var counter: nat

    constructor (files: Files, pid: nat)
      ensures this.files == files && this.pid == pid && counter == 0
    {
      this.files, this.pid, counter := files, pid, 0;
    }

    /** `write_atomic`. `fault` picks the file operation that fails, if it is
        below 4: creating the temp file, writing it, renaming it. */
    method WriteAtomic(target: Path, content: string, fault: nat, ghost mode: Mode, ghost taken: set<Path>)
      returns (end: PutEnd, ghost trail: seq<(Files, PutState)>)
      requires !IsTemp(target)
      modifies this
      ensures Trail(target, content, mode, taken, trail) && trail != []
      ensures trail[0] == (old(files), Busy(Named(TempPath(target.dir, pid, old(counter)))))
      ensures trail[|trail| - 1] == (files, Ended(end))
      ensures end != Conflict && counter == old(counter) + 1
      ensures files == if end == Stored then old(files)[target := content]
                       else old(files) - {TempPath(target.dir, pid, old(counter))}
      ensures fault >= 4 ==> (end == IoError <==> TempPath(target.dir, pid, old(counter)) in old(files))
    {
      var tmp := TempPath(target.dir, pid, counter);
      TempPaths(target.dir, pid, counter, target.dir, pid, counter);
      counter := counter + 1;
      trail := [(files, Busy(Named(tmp)))];
      if fault == 1 || tmp in files {
        files := files - {tmp};
        end := IoError;
      } else {
        files := files[tmp := ""];
        TrailExtends(target, content, mode, taken, trail, (files, Busy(Open(tmp, 0))));
        trail := trail + [(files, Busy(Open(tmp, 0)))];
        if |content| > 0 && fault != 2 {
          files := files[tmp := content];
          assert content[..|content|] == content;
          TrailExtends(target, content, mode, taken, trail, (files, Busy(Open(tmp, |content|))));
          trail := trail + [(files, Busy(Open(tmp, |content|)))];
        }
        if fault == 2 || fault == 3 {
          files := files - {tmp};
          end := IoError;
        } else {
          files := (files - {tmp})[target := files[tmp]];
          end := Stored;
        }
      }
      TrailExtends(target, content, mode, taken, trail, (files, Ended(end)));
      trail := trail + [(files, Ended(end))];
    }

    /** `put_content_addressed` and `put_trace`, which look at the target first.
        A `fault` of 0 fails the look. */
    method Put(target: Path, content: string, mode: Mode, fault: nat, ghost taken: set<Path>)
      returns (end: PutEnd, ghost trail: seq<(Files, PutState)>)
      requires !IsTemp(target) && Unheld(taken, pid, counter)
      modifies this
      ensures Trail(target, content, mode, taken, trail) && trail != [] && Unheld(taken, pid, counter)
      ensures trail[0] == (old(files), Busy(Look)) && trail[|trail| - 1] == (files, Ended(end))
      ensures Untouched(old(files), files, if end.Stored? then {target} else {})
      ensures end == Stored ==> target in files && files[target] == content
      ensures end == Conflict ==> target in files && files == old(files)
      ensures end == Stored && target in old(files) ==> mode.Addressed?
      ensures fault > 0 && target in old(files) ==>
        files == old(files) && end == if mode.Addressed? && old(files)[target] == content then Stored else Conflict
      ensures forall p: Path | p.dir != target.dir :: SameAt(old(files), files, p)
      ensures fault >= 4 ==> (files, end) == PutOutcome(old(files), target, content, mode, pid, old(counter))
      ensures fault >= 4 ==> (end == IoError <==> !Clear(old(files), target, pid, old(counter)))
      ensures fault > 0 || end != IoError ==> counter == Uses(old(files), target, old(counter))
    {
      var tmp := TempPath(target.dir, pid, counter);
      TempPaths(target.dir, pid, counter, target.dir, pid, counter);
      ghost var files0 := files;
      if fault > 0 && target !in files {
        end, trail := WriteAtomic(target, content, fault, mode, taken);
        assert PutNext(files0, Look, target, content, mode, taken, files0, Busy(Named(tmp)));
        TrailJoins(target, content, mode, taken, files0, Look, trail);
        trail := [(files0, Busy(Look))] + trail;
      } else {
        trail := [(files, Busy(Look))];
        end := if fault == 0 then IoError
               else if mode.Addressed? && files[target] == content then Stored else Conflict;
        TrailExtends(target, content, mode, taken, trail, (files, Ended(end)));
        trail := trail + [(files, Ended(end))];
      }
    }
  }
}
