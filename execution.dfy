/** The execution side: the root `describe`, `Runner::run` and
    `Runner::result`. Every closure invocation is recorded in a ghost trace
    so that the order and the number of calls can be stated. */
module Execution {
  import opened Report
  import opened Registration

  datatype Option<T> = None | Some(value: T)

  /** One closure invocation: before-each hook `hook` run for test `test`,
      or test `test` itself. Both are positions in registration order. */
  datatype Call = HookCall(test: nat, hook: nat) | TestCall(test: nat)

  /** How many hooks run before a test is due: all of them, or those up to
      and including the first one that panics. */
  function HooksRun(hooks: seq<HookFn>): (k: nat)
    ensures k <= |hooks|
    ensures Panics !in hooks ==> k == |hooks|
    ensures Panics in hooks ==> 0 < k && hooks[k - 1] == Panics
    ensures forall i :: 0 <= i < k - 1 ==> hooks[i] == Returns
  {
    var p := FirstIndexOf(hooks, Panics);
    assert forall i :: 0 <= i < p ==> hooks[i].Returns?;
    if p < |hooks| then p + 1 else |hooks|
  }

  /** The hook calls made for test `test` when the first `k` hooks run. */
  function HookPrefix(test: nat, k: nat): (r: seq<Call>)
    ensures |r| == k
  {
    if k == 0 then [] else HookPrefix(test, k - 1) + [HookCall(test, k - 1)]
  }

  /** The i-th of those calls is hook i's, for that test. */
  lemma {:induction false} HookPrefixCalls(test: nat, k: nat)
    ensures forall i :: 0 <= i < k ==> HookPrefix(test, k)[i] == HookCall(test, i)
  {
    if k > 0 {
      HookPrefixCalls(test, k - 1);
    }
  }

  /** The calls made for test number `test`: the hooks in registration order
      until one panics, then, if none did, the test itself. What the test
      returns plays no part: the closure is invoked whatever it yields. */
  function CaseTrace(hooks: seq<HookFn>, test: nat): (r: seq<Call>)
    ensures |r| == CaseLength(hooks)
  {
    HookPrefix(test, HooksRun(hooks)) + if Panics in hooks then [] else [TestCall(test)]
  }

  /** Within one case every call is for that test; hook i is called at
      position i, so hooks run in registration order; hook i runs exactly
      when every hook before it returned; and the test is called, last,
      exactly when every hook returned. */
  lemma CaseTraceOrder(hooks: seq<HookFn>, test: nat)
    ensures var r := CaseTrace(hooks, test);
      && (forall k :: 0 <= k < |r| ==> r[k].test == test)
      && (forall k :: 0 <= k < |r| && r[k].HookCall? ==> r[k].hook == k)
      && (forall i :: 0 <= i < |hooks| ==>
            (HookCall(test, i) in r <==> forall i' :: 0 <= i' < i ==> hooks[i'] == Returns))
      && (TestCall(test) in r <==> forall i :: 0 <= i < |hooks| ==> hooks[i] == Returns)
      && (TestCall(test) in r ==> r[|r| - 1] == TestCall(test))
  {
    var r := CaseTrace(hooks, test);
    var k := HooksRun(hooks);
    HookPrefixCalls(test, k);
    forall i | 0 <= i < |hooks|
      ensures HookCall(test, i) in r <==> forall i' :: 0 <= i' < i ==> hooks[i'] == Returns
    {
      if HookCall(test, i) in r {
        assert i < k;
      } else {
        assert k <= i;
        assert hooks[k - 1] == Panics;
      }
    }
    if Panics !in hooks {
      assert forall i :: 0 <= i < |hooks| ==> hooks[i].Returns?;
    } else {
      assert hooks[k - 1] == Panics;
    }
  }

  /** What the `catch_unwind` around the hooks and the test yields: `Err`
      when a hook panics, otherwise the test's own result, with a panic
      turned into `Err`. */
  function CaseResult(hooks: seq<HookFn>, test: TestFn): (r: TestResult)
    ensures r == Ok <==> test == Pass && forall i :: 0 <= i < |hooks| ==> hooks[i] == Returns
  {
    if Panics in hooks then Err
    else
      assert forall i :: 0 <= i < |hooks| ==> hooks[i].Returns?;
      match test
      case Pass => Ok
      case Fail => Err
      case Panic => Err
  }

  /** The result of every registered test, in registration order. */
  function Results(tests: seq<TestFn>, hooks: seq<HookFn>): (r: seq<TestResult>)
    ensures |r| == |tests|
    ensures forall j :: 0 <= j < |tests| ==> r[j] == CaseResult(hooks, tests[j])
  {
    seq(|tests|, j requires 0 <= j < |tests| => CaseResult(hooks, tests[j]))
  }

  /** The calls one run makes for `n` registered tests: their cases, one
      after the other, in registration order. */
  function RunTrace(n: nat, hooks: seq<HookFn>): seq<Call>
  {
    if n == 0 then [] else RunTrace(n - 1, hooks) + CaseTrace(hooks, n - 1)
  }

  /** What a count of invocations looks for. */
  datatype Probe = AnyHook | HookOf(hook: nat) | TestOf(test: nat)

  predicate Matches(c: Call, p: Probe)
  {
    match p
    case AnyHook => c.HookCall?
    case HookOf(i) => c.HookCall? && c.hook == i
    case TestOf(j) => c == TestCall(j)
  }

  /** The number of calls in `trace` that `p` looks for. */
  function Count(trace: seq<Call>, p: Probe): nat
  {
    if trace == [] then 0
    else Count(trace[..|trace| - 1], p) + if Matches(trace[|trace| - 1], p) then 1 else 0
  }

  lemma {:induction false} CountAppend(a: seq<Call>, b: seq<Call>, p: Probe)
    ensures Count(a + b, p) == Count(a, p) + Count(b, p)
    decreases |b|
  {
    if b == [] {
      assert a + b == a;
    } else {
      CountAppend(a, b[..|b| - 1], p);
      assert (a + b)[..|a + b| - 1] == a + b[..|b| - 1];
    }
  }

  lemma {:induction false} HookPrefixCount(test: nat, k: nat, p: Probe)
    ensures Count(HookPrefix(test, k), p) ==
              match p
              case AnyHook => k
              case HookOf(i) => if i < k then 1 else 0
              case TestOf(_) => 0
  {
    if k > 0 {
      HookPrefixCount(test, k - 1, p);
      var r := HookPrefix(test, k);
      assert r[..|r| - 1] == HookPrefix(test, k - 1);
    }
  }

  /** One case invokes a hook once for each hook it reaches. */
  lemma CaseHookCalls(hooks: seq<HookFn>, test: nat)
    ensures Count(CaseTrace(hooks, test), AnyHook) == HooksRun(hooks)
  {
    CaseCount(hooks, test, AnyHook);
    HookPrefixCount(test, HooksRun(hooks), AnyHook);
  }

  /** One case invokes hook i once if it reaches it, and never otherwise. */
  lemma CaseHookCallsOf(hooks: seq<HookFn>, test: nat, i: nat)
    ensures Count(CaseTrace(hooks, test), HookOf(i)) == if i < HooksRun(hooks) then 1 else 0
  {
    CaseCount(hooks, test, HookOf(i));
    HookPrefixCount(test, HooksRun(hooks), HookOf(i));
  }

  /** One case invokes its own test once if no hook panics, and no other test. */
  lemma CaseTestCalls(hooks: seq<HookFn>, test: nat, j: nat)
    ensures Count(CaseTrace(hooks, test), TestOf(j)) == if j == test && Panics !in hooks then 1 else 0
  {
    CaseCount(hooks, test, TestOf(j));
    HookPrefixCount(test, HooksRun(hooks), TestOf(j));
  }

  /** The count of a case's calls splits into its hook calls and its test call. */
  lemma CaseCount(hooks: seq<HookFn>, test: nat, p: Probe)
    ensures Count(CaseTrace(hooks, test), p) ==
              Count(HookPrefix(test, HooksRun(hooks)), p) +
              if Panics !in hooks && Matches(TestCall(test), p) then 1 else 0
  {
    var k := HooksRun(hooks);
    var tail := if Panics in hooks then [] else [TestCall(test)];
    CountAppend(HookPrefix(test, k), tail, p);
    if tail != [] {
      assert tail[..0] == [];
    }
  }

  /** Each before-each hook that is reached runs exactly once for every
      registered test, and none runs more often: a hook after the first
      panicking one never runs. */
  lemma {:induction false} EachHookRunsOncePerTest(n: nat, hooks: seq<HookFn>, i: nat)
    ensures Count(RunTrace(n, hooks), HookOf(i)) == if i < HooksRun(hooks) then n else 0
  {
    if n > 0 {
      RunCountStep(n, hooks, HookOf(i));
      CaseHookCallsOf(hooks, n - 1, i);
      EachHookRunsOncePerTest(n - 1, hooks, i);
    }
  }

  /** In all, hooks are invoked (number of hooks reached) times (number of
      tests); when no hook panics that is the number of hooks times the
      number of tests. */
  lemma {:induction false} HookCallsTotal(n: nat, hooks: seq<HookFn>)
    ensures Count(RunTrace(n, hooks), AnyHook) == n * HooksRun(hooks)
    ensures Panics !in hooks ==> Count(RunTrace(n, hooks), AnyHook) == n * |hooks|
  {
    if n > 0 {
      RunCountStep(n, hooks, AnyHook);
      CaseHookCalls(hooks, n - 1);
      HookCallsTotal(n - 1, hooks);
      MulSucc(n, HooksRun(hooks));
    }
  }

  /** One more test adds the calls of one case. */
  lemma RunCountStep(n: nat, hooks: seq<HookFn>, p: Probe)
    requires n > 0
    ensures Count(RunTrace(n, hooks), p) == Count(RunTrace(n - 1, hooks), p) + Count(CaseTrace(hooks, n - 1), p)
  {
    var prev, last := RunTrace(n - 1, hooks), CaseTrace(hooks, n - 1);
    assert RunTrace(n, hooks) == prev + last;
    CountAppend(prev, last, p);
  }

  /** Every registered test is invoked exactly once, whatever earlier tests
      returned and whether they panicked, unless a hook panics, in which
      case no test is invoked. */
  lemma {:induction false} EachTestInvokedOnce(n: nat, hooks: seq<HookFn>, j: nat)
    ensures Count(RunTrace(n, hooks), TestOf(j)) == if j < n && Panics !in hooks then 1 else 0
  {
    if n > 0 {
      RunCountStep(n, hooks, TestOf(j));
      CaseTestCalls(hooks, n - 1, j);
      EachTestInvokedOnce(n - 1, hooks, j);
    }
  }

  /** The number of calls one case makes. */
  function CaseLength(hooks: seq<HookFn>): nat
  {
    HooksRun(hooks) + if Panics in hooks then 0 else 1
  }

  lemma {:induction false} RunTraceLength(n: nat, hooks: seq<HookFn>)
    ensures |RunTrace(n, hooks)| == n * CaseLength(hooks)
  {
    if n > 0 {
      RunTraceLength(n - 1, hooks);
      assert (n - 1) * CaseLength(hooks) + CaseLength(hooks) == n * CaseLength(hooks);
    }
  }

  /** Running more tests only adds calls at the end: the calls for the
      first m tests come before any call for a later test. */
  lemma {:induction false} RunTracePrefix(m: nat, n: nat, hooks: seq<HookFn>)
    requires m <= n
    ensures RunTrace(m, hooks) <= RunTrace(n, hooks)
    decreases n - m
  {
    if m < n {
      RunTracePrefix(m, n - 1, hooks);
    }
  }

  /** The trace of a run is the case traces laid end to end in registration
      order, all of one length c: the calls for test j are exactly those at
      positions j * c up to (j + 1) * c. */
  lemma RunTraceShape(n: nat, hooks: seq<HookFn>, j: nat)
    requires j < n
    ensures |RunTrace(n, hooks)| == n * CaseLength(hooks)
    ensures (j + 1) * CaseLength(hooks) <= n * CaseLength(hooks)
    ensures RunTrace(n, hooks)[j * CaseLength(hooks) .. (j + 1) * CaseLength(hooks)] == CaseTrace(hooks, j)
  {
    var c := CaseLength(hooks);
    RunTraceLength(n, hooks);
    RunTraceLength(j, hooks);
    RunTracePrefix(j + 1, n, hooks);
    MulMono(j + 1, n, c);
    var lo, hi := j * c, (j + 1) * c;
    assert hi == lo + c;
    var upto := RunTrace(j + 1, hooks);
    assert upto == RunTrace(j, hooks) + CaseTrace(hooks, j);
    assert RunTrace(n, hooks)[lo..hi] == upto[lo..hi];
  }

  lemma MulSucc(n: nat, k: nat)
    requires n > 0
    ensures (n - 1) * k + k == n * k
  {
  }

  lemma {:induction false} MulMono(a: nat, b: nat, c: nat)
    requires a <= b
    ensures a * c <= b * c
    decreases b - a
  {
    if a < b {
      MulMono(a + 1, b, c);
      assert (a + 1) * c == a * c + c;
    }
  }

  /** A panic inside a test counts exactly as if the test had returned
      `Err(())`: the same results, hence the same report. */
  lemma PanicIsErr(tests: seq<TestFn>, hooks: seq<HookFn>, k: nat)
    requires k < |tests| < 0x1_0000_0000
    ensures Results(tests[k := Panic], hooks) == Results(tests[k := Fail], hooks)
    ensures Summary(Results(tests[k := Panic], hooks)) == Summary(Results(tests[k := Fail], hooks))
  {
    var a, b := Results(tests[k := Panic], hooks), Results(tests[k := Fail], hooks);
    assert forall j :: 0 <= j < |tests| ==> a[j] == b[j];
  }

  /** Owns the registered context and the report of the last run. */
  class Runner {
    const describe: Context
    var report: Option<ReportResult>
    /** Every closure invocation made by the runs so far, in order. */
    ghost var trace: seq<Call>

    /** `Runner { describe: c, report: None }` */
    constructor (describe: Context)
      ensures this.describe == describe && report == None && trace == []
    {
      this.describe := describe;
      report := None;
      trace := [];
    }

    /** The report of the last run, or `Ok` with every counter zero when
        there has been no run yet. */
    function Result(): (r: ReportResult)
      reads this
      ensures report.Some? ==> r == report.value
      ensures report == None ==> r == ReportOk(DefaultReport)
    {
      match report
      case Some(rep) => rep
      case None => ReportOk(DefaultReport)
    }

    /** Runs every registered test in registration order, each preceded by
        every before-each hook, catching panics case by case, and stores
        the report. The run itself never fails. */
    method Run() returns (r: TestResult)
      requires |describe.tests| < 0x1_0000_0000
      modifies this`report, this`trace
      ensures r == Ok
      ensures report == Some(Summary(Results(describe.tests, describe.beforeEach)))
      ensures Result() == Summary(Results(describe.tests, describe.beforeEach))
      ensures trace == old(trace) + RunTrace(|describe.tests|, describe.beforeEach)
    {
      var rep := DefaultReport;
      var result := Ok;
      var tests, hooks := describe.tests, describe.beforeEach;
      ghost var results := Results(tests, hooks);
      for j := 0 to |tests|
        invariant (if result == Ok then ReportOk(rep) else ReportErr(rep)) == Summary(results[..j])
        invariant trace == old(trace) + RunTrace(j, hooks)
      {
        var res := RunCase(j, tests[j], hooks);
        assert results[..j + 1] == results[..j] + [res];
        SummaryStep(results[..j], res);
        match result {
          case Ok =>
            rep := rep.(successCount := rep.successCount + 1);
            result := res;
          case Err =>
            rep := rep.(errorCount := rep.errorCount + 1);
        }
        rep := rep.(totalTests := rep.totalTests + 1);
      }
      assert results[..|tests|] == results;
      if result == Ok {
        report := Some(ReportOk(rep));
      } else {
        report := Some(ReportErr(rep));
      }
      r := Ok;
    }

    /** The closure handed to `catch_unwind` for test number `j`: the hooks
        in order, then the test, abandoned at the first panic. */
    method RunCase(j: nat, test: TestFn, hooks: seq<HookFn>) returns (res: TestResult)
      modifies this`trace
      ensures res == CaseResult(hooks, test)
      ensures trace == old(trace) + CaseTrace(hooks, j)
    {
      var i := 0;
      var panicked := false;
      while i < |hooks| && !panicked
        invariant 0 <= i <= |hooks|
        invariant !panicked ==> forall k :: 0 <= k < i ==> hooks[k] == Returns
        invariant panicked ==> 0 < i && hooks[i - 1] == Panics
        invariant panicked ==> forall k :: 0 <= k < i - 1 ==> hooks[k] == Returns
        invariant trace == old(trace) + HookPrefix(j, i)
      {
        trace := trace + [HookCall(j, i)];
        panicked := hooks[i] == Panics;
        i := i + 1;
      }
      if panicked {
        assert FirstIndexOf(hooks, Panics) == i - 1;
        res := Err;
      } else {
        assert Panics !in hooks;
        trace := trace + [TestCall(j)];
        res := match test
          case Pass => Ok
          case Fail => Err
          case Panic => Err;
      }
    }
  }

  /** The root `describe`: builds the one context, lets `body` register on
      it, and wraps it in a runner that has no report yet. */
  method Describe(body: seq<Step>) returns (runner: Runner)
    ensures fresh(runner) && fresh(runner.describe)
    ensures runner.describe.tests == Tests(body)
    ensures runner.describe.beforeEach == Hooks(body)
    ensures runner.report == None && runner.trace == []
  {
    var c := new Context();
    c.Describe(body);
    runner := new Runner(c);
  }
}
