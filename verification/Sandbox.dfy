// internal/judge/docker_executor.go: running one submission against its tests in
// throw-away containers, within a bounded time and without leaving any behind.
module Sandbox {
  import opened Base
  import opened SandboxEngine
  import opened Rows
  import opened JudgeStore
  import opened JudgeResult
  import opened Outputs

  datatype TestCase = TestCase(input: string, expected: string)

  /** Durations of JudgeConfig, in nanoseconds. */
  datatype Limits = Limits(compile: nat, test: nat, total: nat, cleanup: nat)

  datatype Request = Request(source: string, tests: seq<TestCase>, limits: Limits)

  predicate ValidLimits(l: Limits) {
    0 < l.compile <= l.total && 0 < l.test <= l.total && 0 < l.cleanup
  }

  /** ExecutionRequest.Validate, of what is modelled. */
  predicate ValidRequest(r: Request) {
    ValidLimits(r.limits) && r.source != "" && |r.tests| > 0
  }

  /** When the caller's context ends, and whether by cancellation or by deadline. */
  datatype Parent = Parent(end: Option<nat>, canceled: bool)

  function Deadline(parent: Parent, at: nat): nat {
    if parent.end.Some? then Min(parent.end.value, at) else at
  }

  /** When the whole attempt ends, its total timeout counting from `start`. */
  function TotalEnd(request: Request, parent: Parent, start: nat): nat {
    Deadline(parent, start + request.limits.total)
  }

  // --------------------------------------------------------------------- runs and verdicts

  /** The result of runContainer: an exit, or one of its errors. */
  datatype RunResult = Exited(code: int, stdout: string) | OverLimit | TimedOut | Broken

  /** One run as observed: which container, on which input, when it began and ended, the
      end of its context, and how it went. */
  datatype Seen = Seen(
    box: Box, input: string, began: nat, deadline: nat, ended: nat, first: nat, last: nat, result: RunResult)

  /** The engine said in call `n` that the process exited with `code`; a wait channel
      closed without an error leaves the code at 0. */
  predicate ExitSeen(o: Oracle, n: nat, code: int) {
    || o.event(n) == Waited(WaitDone(Response(false, code))) || o.wait(n) == WaitDone(Response(false, code))
    || (code == 0 && (o.event(n) == Waited(WaitError(false)) || o.wait(n) == WaitError(false)))
  }

  predicate LimitSeen(o: Oracle, n: nat) {
    o.event(n) == OutputDone(CopyOverLimit) || o.copy(n) == CopyOverLimit
  }

  /** The result is what the engine said in one of the calls after `first` up to `last`. */
  ghost predicate Genuine(o: Oracle, first: nat, last: nat, r: RunResult) {
    && (r.Exited? ==> r.stdout == o.output(last) && exists n :: first < n <= last && ExitSeen(o, n, r.code))
    && (r.OverLimit? ==> exists n :: first < n <= last && LimitSeen(o, n))
  }

  /** Why a finished run fails its test, if it does. */
  function Failure(t: TestCase, r: RunResult, oom: Option<bool>): Option<OutcomeKind> {
    match r
    case OverLimit => Some(OutcomeOutputLimit)
    case TimedOut => Some(OutcomeTimeout)
    case Broken => None
    case Exited(code, stdout) =>
      if code != 0 || oom == Some(true) then Some(OutcomeRuntimeError)
      else if !OutputMatches(stdout, t.expected) then Some(OutcomeWrongAnswer)
      else None
  }

  predicate Passes(t: TestCase, r: RunResult, oom: Option<bool>) {
    r.Exited? && oom == Some(false) && Failure(t, r, oom).None?
  }

  /** Each verdict in its own case: outputs are compared line ends apart, up to one
      final newline. */
  lemma FailureMeaning(t: TestCase, r: RunResult, oom: Option<bool>)
    ensures Failure(t, r, oom) == Some(OutcomeOutputLimit) <==> r.OverLimit?
    ensures Failure(t, r, oom) == Some(OutcomeTimeout) <==> r.TimedOut?
    ensures Failure(t, r, oom) == Some(OutcomeRuntimeError) <==> r.Exited? && (r.code != 0 || oom == Some(true))
    ensures Failure(t, r, oom) == Some(OutcomeWrongAnswer)
      <==> r.Exited? && r.code == 0 && oom != Some(true) && !SameLines(ReplaceCrLf(r.stdout), ReplaceCrLf(t.expected))
    ensures Passes(t, r, oom)
      <==> && r.Exited? && r.code == 0 && oom == Some(false)
           && SameLines(ReplaceCrLf(r.stdout), ReplaceCrLf(t.expected))
    ensures Failure(t, r, oom) != Some(OutcomePass) && Failure(t, r, oom) != Some(OutcomeCompileError)
  {
    hide OutputMatches, ReplaceCrLf, SameLines;
    if r.Exited? { MatchesIff(r.stdout, t.expected); }
  }

  lemma PassesIf(t: TestCase, r: RunResult, oom: Option<bool>)
    requires r.Exited? && oom.Some? && Failure(t, r, oom).None?
    ensures Passes(t, r, oom)
  {
    if !oom.value { assert oom == Some(false); }
  }

  lemma CompileFailureMeaning(r: RunResult)
    ensures CompileFailure(r) == Some(OutcomeOutputLimit) <==> r.OverLimit?
    ensures CompileFailure(r) == Some(OutcomeTimeout) <==> r.TimedOut?
    ensures CompileFailure(r) == Some(OutcomeCompileError) <==> r.Exited? && r.code != 0
    ensures CompileFailure(r).None? <==> r.Broken? || (r.Exited? && r.code == 0)
    ensures CompileFailure(r).Some?
      ==> CompileFailure(r).value in {OutcomeOutputLimit, OutcomeTimeout, OutcomeCompileError}
  {
  }

  function CompileFailure(r: RunResult): Option<OutcomeKind> {
    match r
    case OverLimit => Some(OutcomeOutputLimit)
    case TimedOut => Some(OutcomeTimeout)
    case Broken => None
    case Exited(code, _) => if code != 0 then Some(OutcomeCompileError) else None
  }

  predicate RanTest(tests: seq<TestCase>, run: Seen, index: nat)
    requires index < |tests|
  {
    run.box == TestBox(index) && run.input == tests[index].input
  }

  /** Test `i` ran on its input, right after the one before it, and passed. */
  ghost predicate PassedAt(tests: seq<TestCase>, runs: seq<Seen>, oom: Box -> Option<bool>, i: nat) {
    && i < |tests| && i + 1 < |runs|
    && RanTest(tests, runs[i + 1], i) && Passes(tests[i], runs[i + 1].result, oom(TestBox(i)))
  }

  /** The first `k` tests ran in order after the compilation and passed. */
  ghost predicate AllPassed(tests: seq<TestCase>, runs: seq<Seen>, oom: Box -> Option<bool>, k: nat) {
    k <= |tests| && k < |runs| && forall i | 0 <= i < k :: PassedAt(tests, runs, oom, i)
  }

  /** The outcome is that of the compilation if it failed, a pass if every test ran
      and passed, and otherwise the failure of the last test run, all before it
      having passed. */
  ghost predicate FirstFailureDecides(tests: seq<TestCase>, runs: seq<Seen>, oom: Box -> Option<bool>, o: Outcome) {
    && |runs| > 0 && runs[0].box == CompileBox && runs[0].input == "" && !runs[0].result.Broken?
    && if CompileFailure(runs[0].result).Some? then
         |runs| == 1 && o == Outcome(CompileFailure(runs[0].result).value, 0)
       else if o.kind == OutcomePass then
         o.testsPassed == |tests| == |runs| - 1 && AllPassed(tests, runs, oom, |tests|)
       else
         && o.testsPassed < |tests| && |runs| == o.testsPassed + 2
         && AllPassed(tests, runs, oom, o.testsPassed)
         && FailedAt(tests, runs[o.testsPassed + 1], oom, o)
  }

  ghost predicate FailedAt(tests: seq<TestCase>, run: Seen, oom: Box -> Option<bool>, o: Outcome)
    requires o.testsPassed < |tests|
  {
    var k := o.testsPassed;
    && RanTest(tests, run, k) && Failure(tests[k], run.result, oom(TestBox(k))) == Some(o.kind)
    && (run.result.Exited? ==> oom(TestBox(k)).Some?)
  }

  lemma PassedSoFar(tests: seq<TestCase>, runs: seq<Seen>, oom: Box -> Option<bool>, k: nat, run: Seen)
    requires AllPassed(tests, runs, oom, k) && |runs| == k + 1
    ensures AllPassed(tests, runs + [run], oom, k)
    ensures k < |tests| && RanTest(tests, run, k) && Passes(tests[k], run.result, oom(TestBox(k)))
            ==> AllPassed(tests, runs + [run], oom, k + 1)
  {
    var more := runs + [run];
    forall i | 0 <= i < k ensures PassedAt(tests, more, oom, i) {
      assert PassedAt(tests, runs, oom, i) && more[i + 1] == runs[i + 1];
    }
  }

  // ------------------------------------------------------------- what the outcome means

  /** How one test would go: the run and its OOM flag. */
  datatype Trial = Trial(result: RunResult, oom: Option<bool>)

  /** The reference: over the trials of all tests, the first failing one decides. */
  function FirstFailing(tests: seq<TestCase>, trials: seq<Trial>, from: nat): Outcome
    requires |trials| == |tests| && from <= |tests|
    decreases |tests| - from
  {
    if from == |tests| then Outcome(OutcomePass, |tests|)
    else
      match Failure(tests[from], trials[from].result, trials[from].oom)
      case Some(kind) => Outcome(kind, from)
      case None => FirstFailing(tests, trials, from + 1)
  }

  /** `trials` says of every test how it would go, and agrees with the runs seen. */
  ghost predicate Completes(tests: seq<TestCase>, runs: seq<Seen>, oom: Box -> Option<bool>, trials: seq<Trial>) {
    |trials| == |tests|
    && forall i | 0 <= i < |tests| && i < |runs| - 1 :: trials[i] == Trial(runs[i + 1].result, oom(TestBox(i)))
  }

  lemma {:induction false} FirstFailingFrom(tests: seq<TestCase>, runs: seq<Seen>, oom: Box -> Option<bool>,
                                            trials: seq<Trial>, o: Outcome, from: nat)
    requires FirstFailureDecides(tests, runs, oom, o) && CompileFailure(runs[0].result).None?
    requires Completes(tests, runs, oom, trials) && from <= o.testsPassed
    ensures FirstFailing(tests, trials, from) == o
    decreases o.testsPassed - from
  {
    hide OutputMatches, CompileFailure;
    if from < o.testsPassed {
      assert PassedAt(tests, runs, oom, from);
      assert trials[from] == Trial(runs[from + 1].result, oom(TestBox(from)));
      hide Failure, FirstFailureDecides, Completes;
      FirstFailingFrom(tests, runs, oom, trials, o, from + 1);
    } else if from < |tests| {
      assert FailedAt(tests, runs[from + 1], oom, o);
      assert trials[from] == Trial(runs[from + 1].result, oom(TestBox(from)));
      hide Failure;
    }
  }

  /** Stopping early loses nothing: however the tests that were not run would have
      gone, the outcome is the one that judging all of them gives. */
  lemma EarlyStopIsExact(tests: seq<TestCase>, runs: seq<Seen>, oom: Box -> Option<bool>, trials: seq<Trial>,
      o: Outcome)
    requires FirstFailureDecides(tests, runs, oom, o) && Completes(tests, runs, oom, trials)
    ensures o == match CompileFailure(runs[0].result)
                 case Some(kind) => Outcome(kind, 0)
                 case None => FirstFailing(tests, trials, 0)
  {
    if CompileFailure(runs[0].result).None? {
      FirstFailingFrom(tests, runs, oom, trials, o, 0);
    }
  }

  /** Every outcome of `Execute` maps to a valid terminal result; it is a pass exactly
      when the program compiled and all tests passed, and otherwise counts fewer
      passed tests than there are. */
  lemma OutcomeIsAccepted(tests: seq<TestCase>, runs: seq<Seen>, oom: Box -> Option<bool>, o: Outcome)
    requires FirstFailureDecides(tests, runs, oom, o) && |tests| > 0
    ensures TerminalOf(o, |tests|).Some?
    ensures TerminalOf(o, |tests|).value.verdict == VPass
            <==> CompileFailure(runs[0].result).None? && AllPassed(tests, runs, oom, |tests|)
    ensures o.kind != OutcomePass ==> o.testsPassed < |tests|
  {
    TerminalMeaning(o, |tests|);
    if CompileFailure(runs[0].result).None? && o.kind != OutcomePass {
      assert FailedAt(tests, runs[o.testsPassed + 1], oom, o) && !PassedAt(tests, runs, oom, o.testsPassed);
    }
  }

  /** Test `i` went through as it should: it ran on its input, exited with 0, was not
      killed for memory, and printed what was expected. */
  ghost predicate Solved(tests: seq<TestCase>, runs: seq<Seen>, oom: Box -> Option<bool>, i: nat)
    requires i < |tests| && i + 1 < |runs|
  {
    var run := runs[i + 1];
    && run.box == TestBox(i) && run.input == tests[i].input && oom(TestBox(i)) == Some(false)
    && run.result.Exited? && run.result.code == 0
    && SameLines(ReplaceCrLf(run.result.stdout), ReplaceCrLf(tests[i].expected))
  }

  /** What a reported outcome says about the runs, kind by kind. */
  ghost predicate Tells(tests: seq<TestCase>, runs: seq<Seen>, oom: Box -> Option<bool>, o: Outcome) {
    && |runs| > 0 && runs[0].box == CompileBox && runs[0].input == ""
    && (o.kind == OutcomeCompileError <==> runs[0].result.Exited? && runs[0].result.code != 0)
    && (|runs| == 1 && !(runs[0].result.Exited? && runs[0].result.code != 0) && |tests| > 0 ==>
          || (o.kind == OutcomeOutputLimit && runs[0].result.OverLimit?)
          || (o.kind == OutcomeTimeout && runs[0].result.TimedOut?))
    && (|runs| == 1 && |tests| > 0 ==> o.testsPassed == 0)
    && (|runs| > 1 ==> runs[0].result.Exited? && runs[0].result.code == 0)
    && 0 <= o.testsPassed <= |tests| && o.testsPassed < |runs|
    && (forall i | 0 <= i < o.testsPassed :: Solved(tests, runs, oom, i))
    && (o.kind == OutcomePass ==> o.testsPassed == |tests| == |runs| - 1)
    && (o.kind != OutcomePass && |runs| > 1 ==>
          && o.testsPassed < |tests| && |runs| == o.testsPassed + 2
          && var k := o.testsPassed;
             var run := runs[k + 1];
          && run.box == TestBox(k) && run.input == tests[k].input
          && (o.kind == OutcomeOutputLimit <==> run.result.OverLimit?)
          && (o.kind == OutcomeTimeout <==> run.result.TimedOut?)
          && (o.kind == OutcomeRuntimeError <==>
                run.result.Exited? && (run.result.code != 0 || oom(TestBox(k)) == Some(true)))
          && (o.kind == OutcomeWrongAnswer <==>
                run.result.Exited? && run.result.code == 0 && oom(TestBox(k)) == Some(false)
                && !SameLines(ReplaceCrLf(run.result.stdout), ReplaceCrLf(tests[k].expected))))
  }

  lemma OutcomeTells(tests: seq<TestCase>, runs: seq<Seen>, oom: Box -> Option<bool>, o: Outcome)
    requires FirstFailureDecides(tests, runs, oom, o)
    ensures Tells(tests, runs, oom, o)
  {
    hide Failure, CompileFailure, SameLines, ReplaceCrLf, Passes;
    CompileFailureMeaning(runs[0].result);
    if CompileFailure(runs[0].result).None? {
      forall i | 0 <= i < o.testsPassed ensures Solved(tests, runs, oom, i) {
        assert PassedAt(tests, runs, oom, i);
        FailureMeaning(tests[i], runs[i + 1].result, oom(TestBox(i)));
      }
      if o.kind != OutcomePass {
        var k := o.testsPassed;
        assert FailedAt(tests, runs[k + 1], oom, o);
        FailureMeaning(tests[k], runs[k + 1].result, oom(TestBox(k)));
        var killed := oom(TestBox(k));
        if killed.Some? && !killed.value { assert killed == Some(false); }
      }
    }
  }

  // ---------------------------------------------------------------------- time and lease

  /** Every run has its stage's timeout, but no longer than the attempt as a whole; it
      exits before that or times out at it, and its result is the engine's. */
  ghost predicate InTime(request: Request, o: Oracle, runs: seq<Seen>, totalEnd: nat) {
    forall i | 0 <= i < |runs| :: StageInTime(request.limits, o, i, runs[i], totalEnd)
  }

  ghost predicate StageInTime(l: Limits, o: Oracle, i: nat, run: Seen, totalEnd: nat) {
    && Genuine(o, run.first, run.last, run.result)
    && run.deadline == Min(totalEnd, run.began + if i == 0 then l.compile else l.test)
    && run.began <= run.ended
    && (run.result.Exited? ==> run.ended <= run.deadline)
    && (run.result.TimedOut? ==> run.deadline <= run.ended)
  }

  lemma TestInTime(request: Request, o: Oracle, runs: seq<Seen>, run: Seen, totalEnd: nat)
    requires Genuine(o, run.first, run.last, run.result)
    requires run.deadline == Min(totalEnd, run.began + request.limits.test) && run.began <= run.ended
    requires run.result.Exited? ==> run.ended <= run.deadline
    requires run.result.TimedOut? ==> run.deadline <= run.ended
    ensures InTime(request, o, runs, totalEnd) && runs != [] ==> InTime(request, o, runs + [run], totalEnd)
  {
    assert runs != [] ==> StageInTime(request.limits, o, |runs|, run, totalEnd);
    hide StageInTime;
  }

  const JUDGE_SETUP_MARGIN := 5_000_000_000

  /** The longest time from a claim to the end of an execution that starts within the
      setup margin. */
  function LongestAttempt(l: Limits): nat {
    l.total + 2 * l.cleanup + JUDGE_SETUP_MARGIN
  }

  /** The lease inequality of JudgeConfig.Validate. */
  predicate LeaseCovers(attemptLease: nat, l: Limits) {
    attemptLease > LongestAttempt(l)
  }

  // ------------------------------------------------------------------------ call log

  /** More calls have been made since. */
  predicate Grew(before: seq<Op>, after: seq<Op>) {
    before <= after
  }

  lemma GrewTwice(a: seq<Op>, b: seq<Op>, c: seq<Op>)
    requires Grew(a, b) && Grew(b, c)
    ensures Grew(a, c)
  {
  }

  /** The calls of one test, by the log after each. */
  lemma TestLog(l0: seq<Op>, l1: seq<Op>, l2: seq<Op>, l3: seq<Op>, l4: seq<Op>, box: Box)
    requires l1 == l0 + [Creates(box)] && Grew(l1 + [Attaches(box), Starts(box)], l2)
    requires (l3 == l2 && l4 == l2) || (l3 == l2 + [Inspects(box)] && l4 == l3 + [Removes(box)])
    ensures Grew(l0, l4) && Grew(l0 + [Creates(box), Attaches(box), Starts(box)], l4)
    ensures l4 == l2 + [Inspects(box)] + [Removes(box)] ==> EndsWith(l4, Inspects(box), Removes(box))
  {
    assert l1 + [Attaches(box), Starts(box)] == l0 + [Creates(box), Attaches(box), Starts(box)];
  }

  predicate EndsWith(log: seq<Op>, a: Op, b: Op) {
    |log| >= 2 && log[|log| - 2] == a && log[|log| - 1] == b
  }

  lemma GrewBy(a: seq<Op>, more: seq<Op>)
    ensures Grew(a, a + more)
  {
  }

  // ------------------------------------------------------------------------ resources

  /** attemptResources: what the attempt may have created and must remove. */
  class AttemptResources {
    const engine: Engine
    const cleanupTimeout: nat
    var containers: seq<Box>
    var volume: bool

    /** Nothing exists that is not listed. */
    ghost predicate Covers()
      reads this, engine
    {
      (forall b | b in engine.containers :: b in containers) && (engine.volume ==> volume)
    }

    constructor (engine: Engine, cleanupTimeout: nat)
      requires engine.containers == {} && !engine.volume
      ensures this.engine == engine && this.cleanupTimeout == cleanupTimeout && Covers()
    {
      this.engine, this.cleanupTimeout, containers, volume := engine, cleanupTimeout, [], false;
    }

    method AddContainer(box: Box)
      modifies this`containers
      ensures containers == old(containers) + [box]
    {
      containers := containers + [box];
    }

    method RemoveContainer(box: Box) returns (ok: bool)
      requires Covers()
      modifies this`containers, engine`clock, engine`calls, engine`log, engine`containers
      ensures Covers()
      ensures old(engine.clock) <= engine.clock <= old(engine.clock) + cleanupTimeout
      ensures engine.containers == old(engine.containers) || engine.containers == old(engine.containers) - {box}
      ensures Healthy(engine.oracle) && cleanupTimeout > 0 && box in old(engine.containers)
              ==> ok && engine.clock == old(engine.clock)
      ensures engine.log == old(engine.log) + [Removes(box)]
      ensures ok ==> box in old(engine.containers) && engine.containers == old(engine.containers) - {box}
      ensures !ok ==> containers == old(containers)
      ensures ok ==> multiset(containers) == multiset(old(containers)) - multiset{box}
    {
      var r := engine.ContainerRemove(box, engine.clock + cleanupTimeout);
      if !r.Removed? {
        return false;
      }
      var index := 0;
      while index < |containers|
        invariant 0 <= index <= |containers|
        invariant forall i | 0 <= i < index :: containers[i] != box
        invariant box !in engine.containers && containers == old(containers)
        invariant box in containers && forall b | b in engine.containers :: b in containers
      {
        if containers[index] == box {
          assert containers == containers[..index] + [box] + containers[index + 1..];
          containers := containers[..index] + containers[index + 1..];
          assert forall b | b in old(containers) && b != box :: b in containers;
          break;
        }
        index := index + 1;
      }
      ok := true;
    }

    /** The deferred cleanup: one context for all removals; without an error nothing
        the attempt may have created is left. */
    method Cleanup() returns (ok: bool)
      requires Covers()
      modifies engine`clock, engine`calls, engine`log, engine`containers, engine`volume
      ensures old(engine.clock) <= engine.clock <= old(engine.clock) + cleanupTimeout
      ensures ok ==> engine.containers == {} && !engine.volume
      ensures Healthy(engine.oracle) && cleanupTimeout > 0 ==> ok && engine.clock == old(engine.clock)
      ensures Grew(old(engine.log), engine.log)
    {
      var deadline := engine.clock + cleanupTimeout;
      ok := true;
      var index := |containers|;
      while index > 0
        invariant 0 <= index <= |containers|
        invariant old(engine.clock) <= engine.clock <= deadline
        invariant Covers() && Grew(old(engine.log), engine.log)
        invariant ok ==> forall i | index <= i < |containers| :: containers[i] !in engine.containers
        invariant Healthy(engine.oracle) && cleanupTimeout > 0 ==> ok && engine.clock == old(engine.clock)
      {
        index := index - 1;
        var r := engine.ContainerRemove(containers[index], deadline);
        if r.RemovalFailed? {
          ok := false;
        }
      }
      if volume {
        var r := engine.VolumeRemove(deadline);
        if r.RemovalFailed? {
          ok := false;
        }
      }
    }
  }

  // ------------------------------------------------------------------------- executor

  /** What comes before compiling: the workspace, a staging container that the source is
      copied into, and the container to compile in. */
  function Preparation(): seq<Op> {
    [CreatesVolume, Creates(StagingBox), Starts(StagingBox), CopiesSource, Creates(CompileBox)]
  }

  function Last(log: seq<Op>): Option<Op> {
    if log == [] then None else Some(log[|log| - 1])
  }
  class DockerExecutor {
    const engine: Engine
    ghost var runs: seq<Seen>        // every runContainer of the current attempt

    constructor (engine: Engine)
      ensures this.engine == engine && runs == []
    {
      this.engine, runs := engine, [];
    }

    method Kill(box: Box, timeout: nat)
      modifies engine`clock, engine`calls, engine`log
      ensures old(engine.clock) <= engine.clock <= old(engine.clock) + timeout
      ensures Healthy(engine.oracle) && timeout > 0 ==> engine.clock == old(engine.clock)
      ensures engine.calls == old(engine.calls) + 1
      ensures engine.log == old(engine.log) + [Kills(box)]
    {
      var _ := engine.Call(Kills(box), engine.clock + timeout);
    }

    /** runContainer: ends with its context, except for one kill; an ended context
        fails before anything runs. */
    method RunContainer(box: Box, input: string, deadline: nat, cleanupTimeout: nat) returns (r: RunResult)
      modifies this`runs, engine`clock, engine`calls, engine`log
      ensures runs == old(runs) + [Seen(box, input, old(engine.clock), deadline, engine.clock,
                                          old(engine.calls), engine.calls, r)]
      ensures Genuine(engine.oracle, old(engine.calls), engine.calls, r)
      ensures old(engine.clock) <= engine.clock
      ensures engine.clock <= if old(engine.clock) < deadline then deadline + cleanupTimeout else old(engine.clock)
      ensures r.Exited? ==> engine.clock <= deadline
      ensures r.TimedOut? ==> deadline <= engine.clock
      ensures Healthy(engine.oracle) && old(engine.clock) < deadline && cleanupTimeout > 0
              ==> (r.Exited? || r.OverLimit?) && engine.clock == old(engine.clock)
      ensures Grew(old(engine.log), engine.log)
      ensures !r.Broken? ==> Grew(old(engine.log) + [Attaches(box), Starts(box)], engine.log)
      ensures r.TimedOut? ==> Last(engine.log) == Some(Kills(box))
    {
      ghost var began, first := engine.clock, engine.calls;
      r := RunProcess(box, input, deadline, cleanupTimeout);
      runs := runs + [Seen(box, input, began, deadline, engine.clock, first, engine.calls, r)];
    }

    method RunProcess(box: Box, input: string, deadline: nat, cleanupTimeout: nat) returns (r: RunResult)
      modifies engine`clock, engine`calls, engine`log
      ensures old(engine.clock) <= engine.clock
      ensures engine.clock <= if old(engine.clock) < deadline then deadline + cleanupTimeout else old(engine.clock)
      ensures r.Exited? ==> engine.clock <= deadline
      ensures r.TimedOut? ==> deadline <= engine.clock
      ensures Healthy(engine.oracle) && old(engine.clock) < deadline && cleanupTimeout > 0
              ==> (r.Exited? || r.OverLimit?) && engine.clock == old(engine.clock)
      ensures Genuine(engine.oracle, old(engine.calls), engine.calls, r)
      ensures Grew(old(engine.log), engine.log)
      ensures !r.Broken? ==> Grew(old(engine.log) + [Attaches(box), Starts(box)], engine.log)
      ensures r.TimedOut? ==> Last(engine.log) == Some(Kills(box))
    {
      var attached := engine.Call(Attaches(box), deadline);
      if !attached {
        return Broken;
      }
      var started := engine.Call(Starts(box), deadline);
      if !started {
        return Broken;
      }
      var response := Response(false, 0);
      var first := engine.Select(deadline);
      match first {
        case ContextDone =>
          Kill(box, cleanupTimeout);
          return TimedOut;
        case OutputDone(copy) =>
          assert copy == CopyOverLimit ==> LimitSeen(engine.oracle, engine.calls);
          if copy != CopyOk {
            Kill(box, cleanupTimeout);
            return if copy == CopyOverLimit then OverLimit else Broken;
          }
          var second := engine.SelectWait(deadline);
          if second.None? {
            Kill(box, cleanupTimeout);
            return TimedOut;
          }
          match second.value {
            case WaitError(failed) =>
              if failed {
                return Broken;
              }
            case WaitDone(res) =>
              response := res;
          }
          assert !response.broken ==> ExitSeen(engine.oracle, engine.calls, response.code);
        case Waited(wait) =>
          ghost var seen := engine.calls;
          match wait {
            case WaitError(failed) =>
              if failed {
                if deadline <= engine.clock {
                  Kill(box, cleanupTimeout);
                  return TimedOut;
                }
                return Broken;
              }
              assert ExitSeen(engine.oracle, seen, 0);
            case WaitDone(res) =>
              response := res;
              assert !response.broken ==> ExitSeen(engine.oracle, seen, response.code);
              var second := engine.SelectOutput(deadline);
              if second.None? {
                Kill(box, cleanupTimeout);
                return TimedOut;
              }
              if second.value != CopyOk {
                assert second.value == CopyOverLimit ==> LimitSeen(engine.oracle, engine.calls);
                return if second.value == CopyOverLimit then OverLimit else Broken;
              }
          }
      }
      if response.broken {
        return Broken;
      }
      r := Exited(response.code, engine.oracle.output(engine.calls));
    }

    /** classifyProcessError: a limit or a timeout is an outcome, unless the caller
        was cancelled; anything else is an error. */
    method ClassifyProcessError(parent: Parent, r: RunResult, testsPassed: nat) returns (err: bool, outcome: Outcome)
      requires !r.Exited?
      ensures !err ==> !r.Broken?
      ensures !err ==> outcome == Outcome(if r.OverLimit? then OutcomeOutputLimit else OutcomeTimeout, testsPassed)
      ensures err
          <==> r.Broken? || (r.TimedOut? && parent.canceled && parent.end.Some? && parent.end.value <= engine.clock)
    {
      outcome := Outcome(OutcomeOutputLimit, testsPassed);
      match r {
        case OverLimit =>
          err := false;
        case TimedOut =>
          err := parent.end.Some? && parent.end.value <= engine.clock && parent.canceled;
          outcome := Outcome(OutcomeTimeout, testsPassed);
        case Broken =>
          err := true;
      }
    }

    /** One test in its own container: an error, or why the run fails its test. */
    method RunTest(request: Request, index: nat, parent: Parent, resources: AttemptResources, totalEnd: nat)
      returns (err: bool, failure: Option<OutcomeKind>)
      requires index < |request.tests|
      requires resources.engine == engine && resources.Covers() && resources.cleanupTimeout == request.limits.cleanup
      modifies this`runs, resources`containers, engine`clock, engine`calls, engine`log, engine`containers
      ensures resources.Covers()
      ensures old(engine.clock) <= engine.clock
      ensures engine.clock <= if old(engine.clock) < totalEnd then totalEnd + request.limits.cleanup
          else old(engine.clock)
      ensures !err ==>
        && |runs| == |old(runs)| + 1 && runs == old(runs) + [runs[|old(runs)|]]
        && RanTest(request.tests, runs[|old(runs)|], index)
        && failure == Failure(request.tests[index], runs[|old(runs)|].result, engine.oracle.oom(TestBox(index)))
        && (failure.None? ==> runs[|old(runs)|].result.Exited?)
        && (runs[|old(runs)|].result.Exited? ==> engine.oracle.oom(TestBox(index)).Some?)
      ensures InTime(request, engine.oracle, old(runs), totalEnd) && old(runs) != []
              ==> InTime(request, engine.oracle, runs, totalEnd)
      ensures Healthy(engine.oracle) && old(engine.clock) < totalEnd && ValidLimits(request.limits)
              ==> !err && engine.clock == old(engine.clock)
      ensures !err ==>
        && Grew(old(engine.log), engine.log)
        && Grew(old(engine.log) + [Creates(TestBox(index)), Attaches(TestBox(index)), Starts(TestBox(index))],
                engine.log)
        && (runs[|old(runs)|].result.Exited? ==>
              EndsWith(engine.log, Inspects(TestBox(index)), Removes(TestBox(index))))
    {
      hide InTime, OutputMatches, Healthy, Genuine, Grew, EndsWith;
      var box := TestBox(index);
      failure := None;
      ghost var l0 := engine.log;
      var created := engine.ContainerCreate(box, totalEnd);
      resources.AddContainer(box);
      if !created {
        return true, None;
      }
      ghost var l1 := engine.log;
      var testEnd := Min(totalEnd, engine.clock + request.limits.test);
      var result := RunContainer(box, request.tests[index].input, testEnd, request.limits.cleanup);
      TestInTime(request, engine.oracle, old(runs), runs[|old(runs)|], totalEnd);
      if !result.Exited? {
        var outcome: Outcome;
        err, outcome := ClassifyProcessError(parent, result, index);
        if !err {
          TestLog(l0, l1, engine.log, engine.log, engine.log, box);
        }
        return err, Some(outcome.kind);
      }
      ghost var l2 := engine.log;
      var inspected := engine.Call(Inspects(box), totalEnd);
      ghost var l3 := engine.log;
      if !inspected {
        return true, None;
      }
      var removed := resources.RemoveContainer(box);
      HealthyInspects(engine.oracle, box);
      TestLog(l0, l1, l2, l3, engine.log, box);
      if !removed || engine.oracle.oom(box).None? {
        return true, None;
      }
      if result.code != 0 || engine.oracle.oom(box).value {
        return false, Some(OutcomeRuntimeError);
      }
      if !OutputMatches(result.stdout, request.tests[index].expected) {
        return false, Some(OutcomeWrongAnswer);
      }
      err := false;
    }

    /** The tests in order up to the first that fails. */
    method RunTests(request: Request, parent: Parent, resources: AttemptResources, start: nat)
      returns (err: bool, outcome: Outcome)
      requires resources.engine == engine && resources.Covers() && resources.cleanupTimeout == request.limits.cleanup
      requires |runs| == 1 && runs[0].box == CompileBox && runs[0].input == "" && runs[0].result.Exited?
      requires CompileFailure(runs[0].result).None?
      requires engine.clock <= start + request.limits.total + request.limits.cleanup
      requires InTime(request, engine.oracle, runs, TotalEnd(request, parent, start))
      modifies this`runs, resources`containers, engine`clock, engine`calls, engine`log, engine`containers
      ensures resources.Covers()
      ensures old(engine.clock) <= engine.clock <= start + request.limits.total + request.limits.cleanup
      ensures !err ==> FirstFailureDecides(request.tests, runs, engine.oracle.oom, outcome)
      ensures InTime(request, engine.oracle, runs, TotalEnd(request, parent, start))
      ensures Healthy(engine.oracle) && old(engine.clock) < TotalEnd(request, parent, start)
              && ValidLimits(request.limits)
              ==> !err && engine.clock == old(engine.clock)
      ensures !err ==> Grew(old(engine.log), engine.log)
    {
      var totalEnd := TotalEnd(request, parent, start);
      outcome := Outcome(OutcomePass, 0);
      GrewBy(engine.log, []);
      assert engine.log + [] == engine.log;
      hide Grew, Genuine, InTime;
      for index := 0 to |request.tests|
        invariant resources.Covers()
        invariant old(engine.clock) <= engine.clock <= start + request.limits.total + request.limits.cleanup
        invariant |runs| == index + 1 && runs[0] == old(runs)[0] && InTime(request, engine.oracle, runs, totalEnd)
        invariant Healthy(engine.oracle) && old(engine.clock) < totalEnd && ValidLimits(request.limits)
                  ==> engine.clock == old(engine.clock)
        invariant AllPassed(request.tests, runs, engine.oracle.oom, index)
        invariant Grew(old(engine.log), engine.log)
      {
        ghost var before, logged := runs, engine.log;
        var failure: Option<OutcomeKind>;
        err, failure := RunTest(request, index, parent, resources, totalEnd);
        if err {
          return;
        }
        if failure.None? {
          PassesIf(request.tests[index], runs[index + 1].result, engine.oracle.oom(TestBox(index)));
        }
        GrewTwice(old(engine.log), logged, engine.log);
        PassedSoFar(request.tests, before, engine.oracle.oom, index, runs[index + 1]);
        if failure.Some? {
          return false, Outcome(failure.value, index);
        }
      }
      return false, Outcome(OutcomePass, |request.tests|);
    }

    /** Everything between the creation of the workspace and the deferred cleanup. */
    method Attempt(request: Request, parent: Parent, resources: AttemptResources) returns (err: bool, outcome: Outcome)
      requires resources.engine == engine && resources.Covers() && resources.cleanupTimeout == request.limits.cleanup
      requires ValidRequest(request) && runs == []
      modifies this`runs, resources, engine`clock, engine`calls, engine`log, engine`containers, engine`volume
      ensures resources.Covers()
      ensures old(engine.clock) <= engine.clock <= old(engine.clock) + request.limits.total + request.limits.cleanup
      ensures !err ==> FirstFailureDecides(request.tests, runs, engine.oracle.oom, outcome)
      ensures InTime(request, engine.oracle, runs, TotalEnd(request, parent, old(engine.clock)))
      ensures Healthy(engine.oracle) && old(engine.clock) < TotalEnd(request, parent, old(engine.clock))
              ==> !err && engine.clock == old(engine.clock)
      ensures !err ==> Grew(old(engine.log) + Preparation(), engine.log)
    {
      hide Genuine, AllPassed, Tells, Failure, Grew, Preparation;
      var start := engine.clock;
      var totalEnd := TotalEnd(request, parent, start);
      outcome := Outcome(OutcomePass, 0);
      err := Prepare(resources, totalEnd);
      if err {
        return;
      }
      ghost var prepared := engine.log;
      var compileEnd := Min(totalEnd, engine.clock + request.limits.compile);
      var compiled := RunContainer(CompileBox, "", compileEnd, request.limits.cleanup);
      if !compiled.Exited? {
        err, outcome := ClassifyProcessError(parent, compiled, 0);
        return;
      }
      if compiled.code != 0 {
        return false, Outcome(OutcomeCompileError, 0);
      }
      ghost var ran := engine.log;
      var removed := resources.RemoveContainer(CompileBox);
      if !removed {
        return true, outcome;
      }
      GrewBy(ran, [Removes(CompileBox)]);
      GrewTwice(prepared, ran, engine.log);
      ghost var compiledLog := engine.log;
      err, outcome := RunTests(request, parent, resources, start);
      if !err {
        GrewTwice(prepared, compiledLog, engine.log);
      }
    }

    /** Workspace volume, staging container, source copy, compile container. */
    method Prepare(resources: AttemptResources, totalEnd: nat) returns (err: bool)
      requires resources.engine == engine && resources.Covers()
      modifies resources, engine`clock, engine`calls, engine`log, engine`containers, engine`volume
      ensures resources.Covers()
      ensures old(engine.clock) <= engine.clock <= if old(engine.clock) < totalEnd then totalEnd else old(engine.clock)
      ensures Healthy(engine.oracle) && old(engine.clock) < totalEnd
              ==> !err && engine.clock == old(engine.clock) && CompileBox in engine.containers
      ensures !err ==> engine.log == old(engine.log) + Preparation()
    {
      var ok := engine.VolumeCreate(totalEnd);
      resources.volume := true;
      if !ok {
        return true;
      }
      ok := engine.ContainerCreate(StagingBox, totalEnd);
      resources.AddContainer(StagingBox);
      if !ok {
        return true;
      }
      ok := engine.Call(Starts(StagingBox), totalEnd);
      if !ok {
        return true;
      }
      ok := engine.Call(CopiesSource, totalEnd);
      if !ok {
        return true;
      }
      ok := engine.ContainerCreate(CompileBox, totalEnd);
      resources.AddContainer(CompileBox);
      err := !ok;
    }

    /** `Execute`: whatever the engine does within its contexts, it returns within the
        total timeout plus one kill or removal plus the cleanup; without an error the
        first failing test has decided and no container or volume is left. */
    method Execute(request: Request, parent: Parent) returns (err: bool, outcome: Outcome)
      requires engine.containers == {} && !engine.volume
      modifies this`runs, engine`clock, engine`calls, engine`log, engine`containers, engine`volume
      ensures old(engine.clock) <= engine.clock <= old(engine.clock) + request.limits.total + 2 * request.limits.cleanup
      ensures !err ==> FirstFailureDecides(request.tests, runs, engine.oracle.oom, outcome)
      ensures !err ==> Tells(request.tests, runs, engine.oracle.oom, outcome)
      ensures !err ==>
        && request.source != "" && |request.tests| > 0 && 0 < request.limits.cleanup
        && 0 < request.limits.compile <= request.limits.total && 0 < request.limits.test <= request.limits.total
      ensures !err && outcome.kind == OutcomePass ==>
        |runs| == |request.tests| + 1
        && forall i | 0 <= i < |request.tests| :: Solved(request.tests, runs, engine.oracle.oom, i)
      ensures !err ==> engine.containers == {} && !engine.volume
      ensures InTime(request, engine.oracle, runs,
                     if parent.end.Some? && parent.end.value < old(engine.clock) + request.limits.total
                     then parent.end.value else old(engine.clock) + request.limits.total)
      ensures Healthy(engine.oracle) && ValidRequest(request)
              && (parent.end.None? || old(engine.clock) < parent.end.value)
              ==> !err
      ensures !err ==> Grew(old(engine.log) + Preparation(), engine.log)
    {
      runs := [];
      outcome := Outcome(OutcomePass, 0);
      if !ValidRequest(request) {
        return true, outcome;
      }
      var resources := new AttemptResources(engine, request.limits.cleanup);
      err, outcome := Attempt(request, parent, resources);
      if !err {
        OutcomeTells(request.tests, runs, engine.oracle.oom, outcome);
      }
      var clean := resources.Cleanup();
      if !clean {
        err := true;
      }
    }
  }

  /** The worker's side of an attempt under a valid configuration: execution that
      starts within the setup margin of the claim is over before the lease ends. */
  method ExecuteUnderLease(executor: DockerExecutor, request: Request, parent: Parent, claimedAt: nat,
      attemptLease: nat)
    returns (err: bool, result: Terminal)
    requires executor.engine.containers == {} && !executor.engine.volume
    requires attemptLease > request.limits.total + 2 * request.limits.cleanup + 5_000_000_000
    requires executor.engine.clock <= claimedAt + 5_000_000_000
    modifies executor`runs, executor.engine`clock, executor.engine`calls, executor.engine`log,
        executor.engine`containers, executor.engine`volume
    ensures executor.engine.clock <= claimedAt + LongestAttempt(request.limits) < claimedAt + attemptLease
    ensures !err ==> ValidTerminal(result, |request.tests|)
    ensures !err ==> (result.verdict == VPass <==>
      |executor.runs| > 0 && CompileFailure(executor.runs[0].result).None?
      && AllPassed(request.tests, executor.runs, executor.engine.oracle.oom, |request.tests|))
    ensures !err ==>
      exists outcome :: Tells(request.tests, executor.runs, executor.engine.oracle.oom, outcome)
                        && StoredAs(outcome, result)
  {
    result := Terminal(VFailed, None, 0);
    if |request.tests| == 0 {
      return true, result;
    }
    var outcome: Outcome;
    err, outcome := executor.Execute(request, parent);
    if !err {
      OutcomeIsAccepted(request.tests, executor.runs, executor.engine.oracle.oom, outcome);
      result := TerminalOf(outcome, |request.tests|).value;
    }
  }
}
