/** Whole runs, from the root `describe` to `result()`, for the situations
    the crate's own test module pins down. Each method builds the runner,
    runs it where the original test does, and states the report and the
    closure invocations that follow. */
module Scenarios {
  import opened Report
  import opened Registration
  import opened Execution

  /** A runner that has never run reports `Ok` with every counter zero. */
  method ResultBeforeRun() returns (result: ReportResult)
    ensures result == ReportOk(TestReport(0, 0, 0))
  {
    var runner := Execution.Describe([It(Fail), Before(Panics)]);
    result := runner.Result();
  }

  /** No tests: the run succeeds and the report is `Ok` with every counter zero. */
  method NoTests() returns (ran: TestResult, result: ReportResult)
    ensures ran == Ok
    ensures result == ReportOk(TestReport(0, 0, 0))
  {
    var runner := Execution.Describe([]);
    ran := runner.Run();
    result := runner.Result();
  }

  /** The whole life of a runner: the root `describe` over `body`, one
      `run`, then `result()`. The report is `Summary` of the registered
      tests' results, and the calls are those of one run over them. */
  method DescribeAndRun(body: seq<Step>) returns (result: ReportResult, ghost calls: seq<Call>)
    requires |Tests(body)| < 0x1_0000_0000
    ensures result == Summary(Results(Tests(body), Hooks(body)))
    ensures calls == RunTrace(|Tests(body)|, Hooks(body))
  {
    var runner := Execution.Describe(body);
    var _ := runner.Run();
    result := runner.Result();
    calls := runner.trace;
    assert calls == RunTrace(|Tests(body)|, Hooks(body));
  }

  /** Three passing tests: all three are counted as successes. */
  method CountSuccesses() returns (result: ReportResult)
    ensures result == ReportOk(TestReport(3, 3, 0))
  {
    var body := Its([Pass, Pass, Pass]);
    ItsRegister([Pass, Pass, Pass]);
    PassesReport();
    ghost var calls;
    result, calls := DescribeAndRun(body);
  }

  /** Fail, Fail, Pass: the first test counts as the one success, the two
      after it as errors, although only one of them failed. */
  method CountErrors() returns (result: ReportResult)
    ensures result == ReportErr(TestReport(3, 1, 2))
  {
    var body := Its([Fail, Fail, Pass]);
    ItsRegister([Fail, Fail, Pass]);
    FailFailPassReport();
    ghost var calls;
    result, calls := DescribeAndRun(body);
  }

  /** A test that panics makes the report `Err`, and the test after it is
      still invoked. */
  method PanicDoesNotStopTheRun() returns (result: ReportResult, ghost calls: seq<Call>)
    ensures result == ReportErr(TestReport(2, 1, 1))
    ensures Count(calls, TestOf(1)) == 1
  {
    var body := Its([Panic, Pass]);
    ItsRegister([Panic, Pass]);
    PanicPassReport();
    EachTestInvokedOnce(2, [], 1);
    result, calls := DescribeAndRun(body);
  }

  /** Tests registered at several nesting depths all run, once each. */
  method NestedDescribesRunEveryTest() returns (result: ReportResult, ghost calls: seq<Call>)
    ensures result == ReportOk(TestReport(3, 3, 0))
    ensures forall j :: 0 <= j < 3 ==> Count(calls, TestOf(j)) == 1
  {
    var leaf := [It(Pass)];
    var body := [Describe(leaf), Describe(leaf), Describe([Describe(leaf)])];
    NestedRegistration(leaf, body);
    PassesReport();
    forall j | 0 <= j < 3 ensures Count(RunTrace(3, []), TestOf(j)) == 1 {
      EachTestInvokedOnce(3, [], j);
    }
    result, calls := DescribeAndRun(body);
  }

  /** The three nested groups of `NestedDescribesRunEveryTest` register
      their three tests and no hook. */
  lemma NestedRegistration(leaf: seq<Step>, body: seq<Step>)
    requires leaf == [It(Pass)]
    requires body == [Describe(leaf), Describe(leaf), Describe([Describe(leaf)])]
    ensures Tests(body) == [Pass, Pass, Pass] && Hooks(body) == []
  {
    var once := [Describe(leaf)];
    var twice := [Describe(leaf), Describe(leaf)];
    var deep := [Describe([Describe(leaf)])];
    assert Tests(once) == [Pass] && Hooks(once) == [] by {
      ItsRegister([Pass]);
      assert Its([Pass]) == leaf;
      DescribeIsTransparent([], leaf, []);
      assert [] + once + [] == once && [] + leaf + [] == leaf;
    }
    assert Tests(deep) == [Pass] && Hooks(deep) == [] by {
      DescribeIsTransparent([], once, []);
      assert [] + deep + [] == deep && [] + once + [] == once;
    }
    assert Tests(twice) == [Pass, Pass] && Hooks(twice) == [] by {
      assert twice == once + once;
      TestsAppend(once, once);
      HooksAppend(once, once);
    }
    assert body == twice + deep;
    TestsAppend(twice, deep);
    HooksAppend(twice, deep);
  }

  /** One before-each hook and three tests: the hook runs once before each
      test, three times in all. */
  method BeforeRunsForEveryTest() returns (result: ReportResult, ghost hookCalls: nat)
    ensures result == ReportOk(TestReport(3, 3, 0))
    ensures hookCalls == 3
  {
    var body := [Before(Returns)] + Its([Pass, Pass, Pass]);
    HookThenTestsRegistration(body);
    PassesReport();
    EachHookRunsOncePerTest(3, [Returns], 0);
    ghost var calls;
    result, calls := DescribeAndRun(body);
    hookCalls := Count(calls, HookOf(0));
  }

  /** Three passing tests report three successes, with or without a hook that returns. */
  lemma PassesReport()
    ensures Summary(Results([Pass, Pass, Pass], [])) == ReportOk(TestReport(3, 3, 0))
    ensures Summary(Results([Pass, Pass, Pass], [Returns])) == ReportOk(TestReport(3, 3, 0))
  {
    assert Results([Pass, Pass, Pass], []) == [Ok, Ok, Ok];
    assert Results([Pass, Pass, Pass], [Returns]) == [Ok, Ok, Ok];
  }

  /** Fail, Fail, Pass reports one success and two errors. */
  lemma FailFailPassReport()
    ensures Summary(Results([Fail, Fail, Pass], [])) == ReportErr(TestReport(3, 1, 2))
  {
    assert Results([Fail, Fail, Pass], []) == [Err, Err, Ok];
  }

  /** Panic, Pass reports one success and one error. */
  lemma PanicPassReport()
    ensures Summary(Results([Panic, Pass], [])) == ReportErr(TestReport(2, 1, 1))
  {
    assert Results([Panic, Pass], []) == [Err, Ok];
  }

  /** A `before` call followed by three `it` calls registers the one hook and the three tests. */
  lemma HookThenTestsRegistration(body: seq<Step>)
    requires body == [Before(Returns)] + Its([Pass, Pass, Pass])
    ensures Tests(body) == [Pass, Pass, Pass] && Hooks(body) == [Returns]
  {
    ItsRegister([Pass, Pass, Pass]);
    TestsAppend([Before(Returns)], Its([Pass, Pass, Pass]));
    HooksAppend([Before(Returns)], Its([Pass, Pass, Pass]));
    assert [Before(Returns)][..0] == [];
  }
}
