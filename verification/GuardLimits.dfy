/** How far the agent's limits reach, and where the lock order shows: executions
    that attain the bounds of `GuardRuns`, and the exact conditions. */
module GuardLimits {
  import opened Text
  import opened Chains
  import opened Values
  import opened Guard
  import opened GuardRuns

  // ---------------------------------------------------------------------
  // Pieces of executions
  // ---------------------------------------------------------------------

  function Latest(worlds: seq<World>): World
    requires worlds != []
  {
    worlds[|worlds| - 1]
  }

  const START := World(Ready, NEW, [], {}, Free, map[], [], NEW, [], [], None)

  /** A run that succeeded, and a program that did not lint. */
  const GOOD := CallToolResult(false, map["trace_id" := Str("")], [])
  const LINT := CallToolResult(true, map[], ["line 1: "])

  lemma Outcomes()
    ensures Classify(GOOD) == OK && Classify(LINT) == LINT_ERROR
  {
    var text := "line 1: ";
    assert text[5..] == "1: ";
    assert "1: "[1..] == ": ";
    assert DigitRun(": ") == 0;
    assert LooksLikeLint(text);
    assert Joined([text]) == Joined([text][..0]) + text == text;
  }

  /** No tool call is under way. */
  ghost predicate Idle(w: World)
  {
    w.lock.Free? && (w.turn.Ready? || (w.turn.Tools? && w.waiting == {}))
  }

  /** The model is asked and answers with `calls`. */
  lemma Asks(task: Task, worlds: seq<World>, calls: seq<ToolCall>) returns (more: seq<World>)
    requires Execution(task, worlds) && calls != [] && Idle(Latest(worlds))
    requires Latest(worlds).guard.stop.None? && Latest(worlds).guard.modelCalls < task.maxModelCalls
    ensures Execution(task, more) && worlds <= more
    ensures var w := Latest(worlds);
            var g := w.guard.(modelCalls := w.guard.modelCalls + 1);
            Latest(more) == w.(turn := Tools, guard := g, messages := w.messages + [Ai(calls)],
                               waiting := Positions(|calls|), base := g, before := w.sent, served := [], answer := None)
  {
    var w := Latest(worlds);
    var g := w.guard.(modelCalls := w.guard.modelCalls + 1);
    var asked := w.(turn := Asked, guard := g);
    assert Ask(task, w, asked);
    LinkedAppend(Steps(task), worlds, asked);
    var answered := asked.(turn := Tools, messages := w.messages + [Ai(calls)], waiting := Positions(|calls|),
                           base := g, before := w.sent, served := [], answer := None);
    assert w.messages + [] + [Ai(calls)] == w.messages + [Ai(calls)];
    assert Answered(asked, answered, [], calls);
    LinkedAppend(Steps(task), worlds + [asked], answered);
    more := worlds + [asked] + [answered];
  }

  /** The agent's first reply. */
  lemma Replying(task: Task, calls: seq<ToolCall>) returns (worlds: seq<World>)
    requires calls != [] && task.maxModelCalls >= 1
    ensures Execution(task, worlds)
    ensures var w := Latest(worlds);
            && w.turn.Tools? && Reply(w) == calls && w.waiting == Positions(|calls|) && w.lock.Free?
            && w.guard == NEW.(modelCalls := 1) && w.sent == [] == w.before
  {
    worlds := Asks(task, [START], calls);
  }

  /** A call with the first one's id that gets the lock while a run is to spare is
      sent. */
  lemma Admitted(task: Task, worlds: seq<World>, p: nat) returns (more: seq<World>)
    requires Execution(task, worlds)
    requires var w := Latest(worlds);
             && w.turn.Tools? && p in w.waiting && w.lock.Free? && HasFirstId(Reply(w), p)
             && w.guard.stop.None? && w.guard.successes < task.maxRuns
    ensures Execution(task, more) && worlds <= more
    ensures var w := Latest(worlds);
            Latest(more) == w.(waiting := w.waiting - {p}, lock := Sending(p),
                               sent := w.sent + [SentOf(task, Reply(w)[p])])
  {
    var w := Latest(worlds);
    Reachable(task, worlds, |worlds| - 1);
    AdmitExact(task, w, p);
    var w' := w.(waiting := w.waiting - {p}, lock := Sending(p), sent := w.sent + [SentOf(task, Reply(w)[p])]);
    assert Acquire(task, w, w', p);
    LinkedAppend(Steps(task), worlds, w');
    more := worlds + [w'];
  }

  /** The sent call comes back with `result`. */
  lemma Returning(task: Task, worlds: seq<World>, result: CallToolResult) returns (more: seq<World>)
    requires Execution(task, worlds) && Latest(worlds).lock.Sending?
    ensures Execution(task, more) && worlds <= more
    ensures var w := Latest(worlds);
            Latest(more) == w.(guard := Settle(task, w.guard, Replied(result)), lock := Free, raw := Latest(more).raw,
                               served := w.served + [w.lock.call], answer := Some(Replied(result)))
  {
    var w := Latest(worlds);
    var w1 := w.(lock := Delivered(w.lock.call, result), raw := w.raw["execute" := result]);
    assert Deliver(w, w1, result);
    LinkedAppend(Steps(task), worlds, w1);
    var answer := Replied(result);
    var w2 := w1.(guard := Settle(task, w1.guard, answer), raw := w1.raw - {"execute"}, lock := Free,
                  served := w1.served + [w1.lock.call], answer := Some(answer));
    assert Finish(task, w1, w2);
    LinkedAppend(Steps(task), worlds + [w1], w2);
    more := worlds + [w1] + [w2];
  }

  /** A call is sent and comes back: one more success, or one more lint error. */
  lemma SentAndBack(task: Task, worlds: seq<World>, p: nat, good: bool) returns (more: seq<World>)
    requires Execution(task, worlds)
    requires var w := Latest(worlds);
             && w.turn.Tools? && p in w.waiting && w.lock.Free? && HasFirstId(Reply(w), p)
             && w.guard.stop.None? && w.guard.successes < task.maxRuns
             && (good || w.guard.lintStreak + 1 < task.maxLintStreak)
    ensures Execution(task, more) && worlds <= more
    ensures var w, w' := Latest(worlds), Latest(more);
            && w'.turn == w.turn && w'.messages == w.messages && w'.waiting == w.waiting - {p} && w'.lock.Free?
            && |w'.sent| == |w.sent| + 1 && w'.before == w.before && w'.guard.stop.None?
            && w'.guard.modelCalls == w.guard.modelCalls
            && w'.guard.successes == w.guard.successes + (if good then 1 else 0)
            && w'.guard.lintStreak == if good then 0 else w.guard.lintStreak + 1
  {
    Outcomes();
    var sent := Admitted(task, worlds, p);
    more := Returning(task, sent, if good then GOOD else LINT);
    NoteParts(task, Latest(worlds).guard, RunOf(|Latest(worlds).guard.runs| + 1, Replied(if good then GOOD else LINT)));
    assert worlds == sent[..|worlds|] <= more;
  }

  // ---------------------------------------------------------------------
  // The most that can be sent
  // ---------------------------------------------------------------------

  const CALL := ToolCall("c", "execute", map[])

  function Copies(n: nat): (calls: seq<ToolCall>)
    ensures |calls| == n && forall p | 0 <= p < n :: calls[p] == CALL
  {
    if n == 0 then [] else [CALL] + Copies(n - 1)
  }

  lemma CopiesRepeat(n: nat, p: nat)
    requires p < n
    ensures HasFirstId(Copies(n), p)
  {
    assert IsExecute(Copies(n), p) && FirstAt(Copies(n)).Some?;
  }

  function RunLimit(task: Task): nat
  {
    AtLeast(0, task.maxRuns)
  }

  function StreakLimit(task: Task): nat
  {
    AtLeast(1, task.maxLintStreak)
  }

  /** `q` successes, each after a full streak of lint errors, and `r` lint errors
      since. */
  ghost predicate InReach(task: Task, q: nat, r: nat)
  {
    r < StreakLimit(task) && (q < RunLimit(task) || (q == RunLimit(task) && r == 0))
  }

  lemma Below(q: nat, r: nat, runs: nat, streak: nat)
    requires r < streak && q < runs
    ensures q * streak + r < runs * streak
  {
    assert (q + 1) * streak <= runs * streak;
    assert (q + 1) * streak == q * streak + streak;
  }

  /** The step before: a lint error if there is one, and otherwise a success. */
  function Before(task: Task, q: nat, r: nat): (p: (nat, nat))
    requires InReach(task, q, r) && (q > 0 || r > 0)
    ensures p.0 < RunLimit(task) && p.1 < StreakLimit(task)
    ensures p.0 * StreakLimit(task) + p.1 + 1 == q * StreakLimit(task) + r
  {
    if r > 0 then (q, r - 1)
    else
      assert (q - 1) * StreakLimit(task) + StreakLimit(task) == q * StreakLimit(task);
      (q - 1, StreakLimit(task) - 1)
  }

  /** One reply repeats one call as often as the limits on runs allow. */
  lemma {:induction false} SendsMany(task: Task, q: nat, r: nat) returns (worlds: seq<World>)
    requires task.maxModelCalls >= 1 && RunLimit(task) > 0 && InReach(task, q, r)
    ensures Execution(task, worlds)
    ensures var k, w := q * StreakLimit(task) + r, Latest(worlds);
            && w.turn.Tools? && w.lock.Free?
            && Reply(w) == Copies(RunLimit(task) * StreakLimit(task)) && |w.sent| == k
            && (forall p: nat | k <= p < RunLimit(task) * StreakLimit(task) :: p in w.waiting)
            && w.guard.stop.None? && w.guard.successes == q && w.guard.lintStreak == r && w.guard.modelCalls == 1
    decreases q, r
  {
    var most := RunLimit(task) * StreakLimit(task);
    if q == 0 && r == 0 {
      Below(0, 0, RunLimit(task), StreakLimit(task));
      worlds := Replying(task, Copies(most));
    } else {
      var (q', r') := Before(task, q, r);
      var k := q' * StreakLimit(task) + r';
      Below(q', r', RunLimit(task), StreakLimit(task));
      worlds := SendsMany(task, q', r');
      CopiesRepeat(most, k);
      worlds := SentAndBack(task, worlds, k, r == 0);
    }
  }

  /** The bound on runs is attained: if the model is asked at all, some execution
      sends that many. */
  lemma MostSent(task: Task) returns (worlds: seq<World>)
    requires task.maxModelCalls >= 1
    ensures Execution(task, worlds)
    ensures |Latest(worlds).sent| == AtLeast(0, task.maxRuns) * AtLeast(1, task.maxLintStreak)
  {
    if RunLimit(task) == 0 {
      worlds := [START];
    } else {
      worlds := SendsMany(task, RunLimit(task), 0);
    }
  }

  ghost predicate SentMore(w: World, n: nat)
  {
    |w.sent| > n
  }

  /** The exact condition: some execution sends more executes than the model may be
      called if and only if it may be called and the limits on runs are larger. */
  lemma ExceedsModelCallsExactly(task: Task)
    ensures (exists worlds: seq<World>, i | 0 <= i < |worlds| ::
               Execution(task, worlds) && SentMore(worlds[i], AtLeast(0, task.maxModelCalls)))
            <==> task.maxModelCalls >= 1
                 && AtLeast(0, task.maxRuns) * AtLeast(1, task.maxLintStreak) > task.maxModelCalls
  {
    if worlds: seq<World>, i :| 0 <= i < |worlds| && Execution(task, worlds)
                                && SentMore(worlds[i], AtLeast(0, task.maxModelCalls)) {
      SentBounded(task, worlds, i);
      Reachable(task, worlds, i);
    }
    if task.maxModelCalls >= 1 && AtLeast(0, task.maxRuns) * AtLeast(1, task.maxLintStreak) > task.maxModelCalls {
      var worlds := MostSent(task);
      assert SentMore(worlds[|worlds| - 1], AtLeast(0, task.maxModelCalls));
    }
  }

  /** One call a reply, for as many replies as the limits allow. */
  lemma {:induction false} SendsEach(task: Task, q: nat, r: nat) returns (worlds: seq<World>)
    requires InReach(task, q, r) && q * StreakLimit(task) + r <= AtLeast(0, task.maxModelCalls)
    ensures Execution(task, worlds)
    ensures var k, w := q * StreakLimit(task) + r, Latest(worlds);
            && Idle(w) && |w.sent| == k && Unrepeated(w.messages)
            && w.guard.stop.None? && w.guard.successes == q && w.guard.lintStreak == r && w.guard.modelCalls == k
    decreases q, r
  {
    if q == 0 && r == 0 {
      worlds := [START];
    } else {
      var (q', r') := Before(task, q, r);
      var before := SendsEach(task, q', r');
      CopiesRepeat(1, 0);
      worlds := Asks(task, before, Copies(1));
      UnrepeatedOn(Latest(before).messages, Copies(1));
      worlds := SentAndBack(task, worlds, 0, r == 0);
      assert Latest(worlds).waiting == Positions(1) - {0};
    }
  }

  lemma UnrepeatedOn(messages: seq<Message>, calls: seq<ToolCall>)
    requires Unrepeated(messages) && |calls| == 1
    ensures Unrepeated(messages + [Ai(calls)])
  {
    var more := messages + [Ai(calls)];
    forall i | 0 <= i < |more| && more[i].Ai? ensures FirstUnrepeated(more[i].calls) {
      assert i < |messages| ==> more[i] == messages[i];
    }
  }

  lemma Reached(task: Task, k: nat) returns (q: nat, r: nat)
    requires k <= RunLimit(task) * StreakLimit(task)
    ensures InReach(task, q, r) && q * StreakLimit(task) + r == k
  {
    var streak := StreakLimit(task);
    q, r := k / streak, k % streak;
    assert q * streak + r == k;
    AtMost(q, r, RunLimit(task), streak);
  }

  lemma AtMost(q: nat, r: nat, runs: nat, streak: nat)
    requires q * streak + r <= runs * streak && streak > 0
    ensures q <= runs && (q == runs ==> r == 0)
  {
    assert (runs + 1) * streak == runs * streak + streak;
    assert q > runs ==> q * streak >= (runs + 1) * streak;
  }

  /** The bound on model calls is attained too, by replies that repeat nothing:
      the most they can send is the smaller of the two bounds. */
  lemma MostSentUnrepeated(task: Task) returns (worlds: seq<World>)
    ensures Execution(task, worlds) && Unrepeated(Latest(worlds).messages)
    ensures var runs, calls := AtLeast(0, task.maxRuns) * AtLeast(1, task.maxLintStreak), AtLeast(0, task.maxModelCalls);
            |Latest(worlds).sent| == if runs < calls then runs else calls
  {
    var runs, calls := RunLimit(task) * StreakLimit(task), AtLeast(0, task.maxModelCalls);
    var q, r := Reached(task, if runs < calls then runs else calls);
    worlds := SendsEach(task, q, r);
  }

  // ---------------------------------------------------------------------
  // When a reply can send twice
  // ---------------------------------------------------------------------

  /** Some run of the agent sends two executes of the reply `calls`. */
  ghost predicate SendsTwice(task: Task, calls: seq<ToolCall>)
  {
    exists worlds: seq<World>, i | 0 <= i < |worlds| :: Execution(task, worlds) && SentTwo(worlds[i], calls)
  }

  ghost predicate SentTwo(w: World, calls: seq<ToolCall>)
  {
    w.turn.Tools? && Reply(w) == calls && |w.sent| >= |w.before| + 2
  }

  lemma TwoSent(task: Task, calls: seq<ToolCall>, c: nat, p: nat) returns (worlds: seq<World>)
    requires HasFirstId(calls, c) && HasFirstId(calls, p) && c != p && task.maxModelCalls >= 1
    requires task.maxRuns >= 2 || (task.maxRuns >= 1 && task.maxLintStreak >= 2)
    ensures Execution(task, worlds) && SentTwo(Latest(worlds), calls)
  {
    var first := Replying(task, calls);
    var second := SentAndBack(task, first, c, task.maxRuns >= 2);
    assert Reply(Latest(second)) == calls;
    worlds := Admitted(task, second, p);
  }

  /** A reply that repeats its first `execute` sends both, when the limits leave
      room for two runs. */
  lemma RepeatedSendsTwice(task: Task, calls: seq<ToolCall>, p: nat)
    requires HasFirstId(calls, p) && FirstAt(calls) != Some(p) && task.maxModelCalls >= 1
    requires task.maxRuns >= 2 || (task.maxRuns >= 1 && task.maxLintStreak >= 2)
    ensures SendsTwice(task, calls)
  {
    var worlds := TwoSent(task, calls, FirstAt(calls).value, p);
    assert SentTwo(worlds[|worlds| - 1], calls);
  }

  lemma TwoRuns(task: Task)
    ensures AtLeast(0, task.maxRuns) * AtLeast(1, task.maxLintStreak) >= 2
            <==> task.maxRuns >= 2 || (task.maxRuns >= 1 && task.maxLintStreak >= 2)
  {
    var r, l := AtLeast(0, task.maxRuns), AtLeast(1, task.maxLintStreak);
    if r >= 2 {
      assert r * l >= r;
    } else if r == 1 {
      assert r * l == l;
    }
  }

  /** The exact condition: a reply can send two executes if and only if another
      `execute` of it repeats the first one's id and the limits leave room. */
  lemma SendsTwiceExactly(task: Task, calls: seq<ToolCall>)
    ensures SendsTwice(task, calls)
            <==> !FirstUnrepeated(calls) && task.maxModelCalls >= 1
                 && AtLeast(0, task.maxRuns) * AtLeast(1, task.maxLintStreak) >= 2
  {
    TwoRuns(task);
    if SendsTwice(task, calls) {
      var worlds: seq<World>, i :| 0 <= i < |worlds| && Execution(task, worlds) && SentTwo(worlds[i], calls);
      Reachable(task, worlds, i);
      SentBounded(task, worlds, i);
      if FirstUnrepeated(calls) {
        TurnSends(task, worlds[i]);
      }
    }
    if !FirstUnrepeated(calls) && task.maxModelCalls >= 1
       && AtLeast(0, task.maxRuns) * AtLeast(1, task.maxLintStreak) >= 2 {
      var p: nat :| HasFirstId(calls, p) && FirstAt(calls) != Some(p);
      RepeatedSendsTwice(task, calls, p);
    }
  }

  // ---------------------------------------------------------------------
  // When the lock order shows
  // ---------------------------------------------------------------------

  /** A reply has come and none of its calls has moved. */
  ghost predicate JustAnswered(w: World)
  {
    && w.turn.Tools? && w.messages != [] && w.messages[|w.messages| - 1].Ai? && w.waiting == Positions(|Reply(w)|)
    && w.served == [] && w.lock.Free? && w.guard == w.base && w.sent == w.before
  }

  /** An execution goes on from `worlds` and serves every `execute` of the reply. */
  ghost predicate Serves(task: Task, worlds: seq<World>, xs: seq<World>)
    requires worlds != []
  {
    && Execution(task, xs) && worlds <= xs && AllServed(Latest(xs))
    && Latest(xs).messages == Latest(worlds).messages
    && Latest(xs).base == Latest(worlds).base && Latest(xs).before == Latest(worlds).before
  }

  ghost predicate Differ(x: World, y: World)
  {
    x.answer == y.answer && x.guard.stop != y.guard.stop
  }

  /** With one answer from the gateway, two lock orders end with different stops. */
  ghost predicate OrderShows(task: Task, worlds: seq<World>)
    requires worlds != []
  {
    exists xs: seq<World>, ys: seq<World> | xs != [] && ys != [] ::
      Serves(task, worlds, xs) && Serves(task, worlds, ys) && Differ(Latest(xs), Latest(ys))
  }

  /** Besides its first `execute` the reply has another. */
  ghost predicate HasSecond(calls: seq<ToolCall>)
  {
    exists p: nat :: IsExecute(calls, p) && FirstAt(calls) != Some(p)
  }

  /** A call that is not the first one's gets the lock and is refused. */
  lemma Turnaway(task: Task, worlds: seq<World>, p: nat) returns (more: seq<World>)
    requires Execution(task, worlds)
    requires var w := Latest(worlds);
             w.turn.Tools? && p in w.waiting && w.lock.Free? && IsExecute(Reply(w), p) && !HasFirstId(Reply(w), p)
    ensures Execution(task, more) && worlds <= more
    ensures var w, w' := Latest(worlds), Latest(more);
            && w' == w.(guard := w'.guard, waiting := w.waiting - {p}, served := w.served + [p])
            && (w.guard.stop.None? && w.guard.successes < task.maxRuns ==> w'.guard == w.guard)
  {
    var w := Latest(worlds);
    Reachable(task, worlds, |worlds| - 1);
    AdmitExact(task, w, p);
    var g := Admit(task, w.guard, w.messages, Reply(w)[p].id).0;
    var w' := w.(guard := g, waiting := w.waiting - {p}, served := w.served + [p]);
    assert Acquire(task, w, w', p);
    LinkedAppend(Steps(task), worlds, w');
    more := worlds + [w'];
  }

  /** What serving the other calls of a reply leaves. */
  ghost predicate OthersServed(task: Task, w: World, w': World)
  {
    && w' == w.(guard := w'.guard, waiting := w'.waiting, served := w'.served)
    && w'.waiting <= w.waiting
    && (forall p | p in w.waiting && HasFirstId(Reply(w), p) :: p in w'.waiting)
    && (forall p | p in w'.waiting && IsExecute(Reply(w), p) :: HasFirstId(Reply(w), p))
    && w.served <= w'.served
    && (forall i | |w.served| <= i < |w'.served| :: !HasFirstId(Reply(w), w'.served[i]))
    && (w.guard.stop.None? && w.guard.successes < task.maxRuns ==> w'.guard == w.guard)
  }

  ghost predicate Unserved(w: World, p: nat)
  {
    p in w.waiting && IsExecute(Reply(w), p) && !HasFirstId(Reply(w), p)
  }

  /** Every call of a reply but those with its first `execute`'s id is served. */
  lemma {:induction false} ServeOthers(task: Task, worlds: seq<World>) returns (more: seq<World>)
    requires Execution(task, worlds) && Latest(worlds).turn.Tools? && Latest(worlds).lock.Free?
    ensures Execution(task, more) && worlds <= more && OthersServed(task, Latest(worlds), Latest(more))
    ensures (exists p :: Unserved(Latest(worlds), p)) ==> |Latest(more).served| > |Latest(worlds).served|
    decreases |Latest(worlds).waiting|
  {
    var w := Latest(worlds);
    if p: nat :| Unserved(w, p) {
      var next := Turnaway(task, worlds, p);
      more := ServeOthers(task, next);
      OthersJoin(task, w, p, Latest(next), Latest(more));
      assert worlds == next[..|worlds|] <= more;
    } else {
      more := worlds;
      forall p | p in w.waiting && IsExecute(Reply(w), p) ensures HasFirstId(Reply(w), p) {
        assert !Unserved(w, p);
      }
    }
  }

  lemma OthersJoin(task: Task, w: World, p: nat, w': World, w'': World)
    requires !HasFirstId(Reply(w), p) && OthersServed(task, w', w'')
    requires w' == w.(guard := w'.guard, waiting := w.waiting - {p}, served := w.served + [p])
    requires w.guard.stop.None? && w.guard.successes < task.maxRuns ==> w'.guard == w.guard
    ensures OthersServed(task, w, w'') && |w''.served| > |w.served|
  {
    assert Reply(w') == Reply(w);
    assert w.served == w'.served[..|w.served|];
    forall i | |w.served| <= i < |w''.served| ensures !HasFirstId(Reply(w), w''.served[i]) {
      assert i == |w.served| ==> w''.served[i] == w'.served[i] == p;
    }
  }

  /** The first `execute` last: it is the cap-th success, and nobody finds the cap. */
  lemma FirstLast(task: Task, worlds: seq<World>) returns (more: seq<World>)
    requires Execution(task, worlds) && JustAnswered(Latest(worlds)) && FirstUnrepeated(Reply(Latest(worlds)))
    requires FirstAt(Reply(Latest(worlds))).Some? && Latest(worlds).base.successes + 1 == task.maxRuns
    ensures Serves(task, worlds, more) && more != []
    ensures Latest(more).answer == Some(Replied(GOOD)) && Latest(more).guard.stop.None?
  {
    var w := Latest(worlds);
    var c := FirstAt(Reply(w)).value;
    Reachable(task, worlds, |worlds| - 1);
    var others := ServeOthers(task, worlds);
    var w1 := Latest(others);
    assert Reply(w1) == Reply(w) && HasFirstId(Reply(w), c) && c in w.waiting;
    var sent := Admitted(task, others, c);
    more := Returning(task, sent, GOOD);
    Outcomes();
    assert worlds == others[..|worlds|] <= more;
    var w3 := Latest(more);
    assert Reply(w3) == Reply(w);
    forall p | p in w3.waiting ensures !IsExecute(Reply(w3), p) {
      assert p in w1.waiting && p != c;
      assert HasFirstId(Reply(w), p) ==> FirstAt(Reply(w)) == Some(p);
    }
  }

  /** The first `execute` first: the next call finds the cap. */
  lemma FirstFirst(task: Task, worlds: seq<World>) returns (more: seq<World>)
    requires Execution(task, worlds) && JustAnswered(Latest(worlds)) && FirstUnrepeated(Reply(Latest(worlds)))
    requires HasSecond(Reply(Latest(worlds))) && Latest(worlds).base.successes + 1 == task.maxRuns
    ensures Serves(task, worlds, more) && more != []
    ensures Latest(more).answer == Some(Replied(GOOD)) && Latest(more).guard.stop == Some(RUN_CAP)
  {
    var w := Latest(worlds);
    var q: nat :| IsExecute(Reply(w), q) && FirstAt(Reply(w)) != Some(q);
    var c := FirstAt(Reply(w)).value;
    var back := FirstBack(task, worlds, c);
    StillUnserved(w, c, Latest(back), q);
    more := OthersAfter(task, w, back, c, q);
    assert worlds == back[..|worlds|] <= more;
  }

  lemma StillUnserved(w: World, c: nat, w': World, q: nat)
    requires JustAnswered(w) && FirstUnrepeated(Reply(w)) && FirstAt(Reply(w)) == Some(c)
    requires w'.messages == w.messages && w'.waiting == w.waiting - {c} && IsExecute(Reply(w), q) && q != c
    ensures Unserved(w', q)
  {
    assert Reply(w') == Reply(w);
    assert HasFirstId(Reply(w), q) ==> FirstAt(Reply(w)) == Some(q);
  }

  /** The other calls get the lock after the cap-th success. */
  lemma OthersAfter(task: Task, w: World, back: seq<World>, c: nat, q: nat) returns (more: seq<World>)
    requires Execution(task, back) && JustAnswered(w) && FirstUnrepeated(Reply(w)) && FirstAt(Reply(w)) == Some(c)
    requires var w' := Latest(back);
             && w'.turn.Tools? && w'.lock.Free? && w'.messages == w.messages && w'.waiting == w.waiting - {c}
             && w'.base == w.base && w'.before == w.before && w'.served == [c] && w'.answer == Some(Replied(GOOD))
    requires Unserved(Latest(back), q) && w.base.successes + 1 == task.maxRuns
    ensures Execution(task, more) && back <= more && AllServed(Latest(more)) && Latest(more).messages == w.messages
    ensures Latest(more).base == w.base && Latest(more).before == w.before
    ensures Latest(more).answer == Some(Replied(GOOD)) && Latest(more).guard.stop == Some(RUN_CAP)
  {
    more := ServeOthers(task, back);
    AllServedAfter(task, w, c, Latest(back), Latest(more));
    assert Reply(Latest(more)) == Reply(w);
    CapFound(task, more, c);
  }

  /** The first `execute` is sent before any other call moves, and succeeds. */
  lemma FirstBack(task: Task, worlds: seq<World>, c: nat) returns (back: seq<World>)
    requires Execution(task, worlds) && JustAnswered(Latest(worlds)) && FirstAt(Reply(Latest(worlds))) == Some(c)
    requires Latest(worlds).base.successes + 1 == task.maxRuns
    ensures Execution(task, back) && worlds <= back
    ensures var w, w' := Latest(worlds), Latest(back);
            && w'.turn.Tools? && w'.lock.Free? && w'.messages == w.messages && w'.waiting == w.waiting - {c}
            && w'.base == w.base && w'.before == w.before && w'.served == [c] && w'.answer == Some(Replied(GOOD))
  {
    Reachable(task, worlds, |worlds| - 1);
    assert HasFirstId(Reply(Latest(worlds)), c) && c in Latest(worlds).waiting;
    var sent := Admitted(task, worlds, c);
    back := Returning(task, sent, GOOD);
    assert worlds == sent[..|worlds|] <= back;
  }

  /** A call served after the cap-th success has found the cap. */
  lemma CapFound(task: Task, worlds: seq<World>, c: nat)
    requires Execution(task, worlds) && AllServed(Latest(worlds)) && FirstUnrepeated(Reply(Latest(worlds)))
    requires FirstAt(Reply(Latest(worlds))) == Some(c) && Latest(worlds).base.successes + 1 == task.maxRuns
    requires Latest(worlds).answer == Some(Replied(GOOD))
    requires var served := Latest(worlds).served; served != [] && served[|served| - 1] != c
    ensures Latest(worlds).guard.stop == Some(RUN_CAP)
  {
    var w := Latest(worlds);
    ServedAt(task, worlds, |worlds| - 1);
    Outcomes();
    NoteParts(task, w.base, RunOf(|w.base.runs| + 1, Replied(GOOD)));
  }

  lemma AllServedAfter(task: Task, w: World, c: nat, w': World, w'': World)
    requires JustAnswered(w) && FirstUnrepeated(Reply(w)) && FirstAt(Reply(w)) == Some(c)
    requires w'.turn.Tools? && w'.lock.Free? && w'.messages == w.messages && w'.waiting == w.waiting - {c}
    requires OthersServed(task, w', w'') && w'.served == [c] && |w''.served| > 1
    ensures AllServed(w'') && w''.served[|w''.served| - 1] != c
    ensures w''.messages == w.messages && w''.base == w'.base && w''.before == w'.before && w''.answer == w'.answer
  {
    assert HasFirstId(Reply(w), c);
    assert Reply(w') == Reply(w) && Reply(w'') == Reply(w);
    forall p | p in w''.waiting ensures !IsExecute(Reply(w''), p) {
      assert p in w'.waiting && p != c;
      assert HasFirstId(Reply(w), p) ==> FirstAt(Reply(w)) == Some(p);
    }
  }

  /** Different stops need a second `execute` and the last success the cap allows. */
  lemma ShowsOnlyAtCap(task: Task, worlds: seq<World>, xs: seq<World>, ys: seq<World>)
    requires worlds != [] && FirstUnrepeated(Reply(Latest(worlds)))
    requires xs != [] && ys != [] && Serves(task, worlds, xs) && Serves(task, worlds, ys)
    requires Differ(Latest(xs), Latest(ys))
    ensures HasSecond(Reply(Latest(worlds))) && Latest(worlds).base.successes + 1 == task.maxRuns
  {
    ServedAt(task, xs, |xs| - 1);
    ServedAt(task, ys, |ys| - 1);
    PairDiffers(task, Latest(xs), Latest(ys));
  }

  lemma PairDiffers(task: Task, x: World, y: World)
    requires ServedForm(task, x) && ServedForm(task, y) && x.base.stop.None?
    requires forall p | p in x.served :: IsExecute(Reply(x), p)
    requires forall p | p in y.served :: IsExecute(Reply(x), p)
    requires x.messages == y.messages && x.base == y.base && x.before == y.before && Differ(x, y)
    ensures HasSecond(Reply(x)) && x.base.successes + 1 == task.maxRuns
  {
    assert Reply(x) == Reply(y);
    AfterDiffers(task, x.base, x.answer.value, x.served, y.served, FirstAt(Reply(x)).value);
    assert x.served != [] ==> x.served[|x.served| - 1] in x.served;
    assert y.served != [] ==> y.served[|y.served| - 1] in y.served;
  }

  lemma AfterDiffers(task: Task, base: GuardState, answer: Answer, s: seq<nat>, t: seq<nat>, c: nat)
    requires Open(task, base) && base.stop.None?
    requires After(task, base, answer, s, c).stop != After(task, base, answer, t, c).stop
    ensures base.successes + 1 == task.maxRuns
    ensures (s != [] && s[|s| - 1] != c) || (t != [] && t[|t| - 1] != c)
  {
    NoteParts(task, base, RunOf(|base.runs| + 1, answer));
  }

  /** The exact condition: from a reply that does not repeat its first `execute`,
      the lock order can show in `stop` if and only if the reply has a second
      `execute` and one more success reaches the cap. */
  lemma OrderShowsExactly(task: Task, worlds: seq<World>)
    requires Execution(task, worlds) && JustAnswered(Latest(worlds)) && FirstUnrepeated(Reply(Latest(worlds)))
    ensures OrderShows(task, worlds)
            <==> HasSecond(Reply(Latest(worlds))) && Latest(worlds).base.successes + 1 == task.maxRuns
  {
    if OrderShows(task, worlds) {
      var xs: seq<World>, ys: seq<World> :| xs != [] && ys != [] && Serves(task, worlds, xs) && Serves(task, worlds, ys)
                                            && Differ(Latest(xs), Latest(ys));
      ShowsOnlyAtCap(task, worlds, xs, ys);
    }
    if HasSecond(Reply(Latest(worlds))) && Latest(worlds).base.successes + 1 == task.maxRuns {
      var xs := FirstFirst(task, worlds);
      var ys := FirstLast(task, worlds);
      assert Differ(Latest(xs), Latest(ys));
    }
  }
}
