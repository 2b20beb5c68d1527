/** The bookkeeping of a run: the per-test `TestResult`, the `TestReport`
    counters and the way `Runner::run` folds the results of the tests into
    one report tagged with the overall status. */
module Report {

  /** `TestResult = Result<(), ()>`: what one test case comes to. */
  datatype TestResult = Ok | Err

  /** The `u32` counters of `TestReport`. */
  newtype u32 = x: int | 0 <= x < 0x1_0000_0000

  datatype TestReport = TestReport(totalTests: u32, successCount: u32, errorCount: u32)

  /** `TestReport::default()` (derived): every counter zero. */
  const DefaultReport := TestReport(0, 0, 0)

  /** `Result<TestReport, TestReport>`: the report, tagged `Ok` or `Err`
      by the overall status of the run. */
  datatype ReportResult = ReportOk(report: TestReport) | ReportErr(report: TestReport)

  /** The index of the first occurrence of `x` in `s`, or `|s|` when there is none. */
  function FirstIndexOf<T(==)>(s: seq<T>, x: T): (k: nat)
    ensures k <= |s|
    ensures forall i :: 0 <= i < k ==> s[i] != x
    ensures k < |s| ==> s[k] == x
  {
    if s == [] then 0
    else if s[0] == x then 0
    else 1 + FirstIndexOf(s[1..], x)
  }

  /** The report `run` produces for tests whose results, in registration
      order, are `results`. While the cumulative status is still `Ok` a test
      counts as a success (the first failing one included) and its own result
      becomes the status; once the status is `Err` every later test counts as
      an error. So with k the index of the first failing test, `successCount`
      is k + 1 and `errorCount` is the number of tests after it. */
  function Summary(results: seq<TestResult>): (r: ReportResult)
    requires |results| < 0x1_0000_0000
    ensures r.report.totalTests as int == |results|
    ensures r.report.successCount as int + r.report.errorCount as int == |results|
    ensures r.ReportOk? <==> forall i :: 0 <= i < |results| ==> results[i] == Ok
    ensures r.ReportOk? ==> r.report.successCount as int == |results| && r.report.errorCount == 0
    ensures r.ReportErr? ==>
              var k := r.report.successCount as int - 1;
              0 <= k < |results| && results[k] == Err &&
              (forall i :: 0 <= i < k ==> results[i] == Ok)
  {
    var n := |results|;
    var k := FirstIndexOf(results, Err);
    if k == n then
      assert forall i :: 0 <= i < n ==> results[i].Ok?;
      ReportOk(TestReport(n as u32, n as u32, 0))
    else ReportErr(TestReport(n as u32, (k + 1) as u32, (n - k - 1) as u32))
  }

  /** One more test, folded in the way `run` does it: while the status is
      `Ok` the test counts as a success and its result becomes the status;
      once the status is `Err` it counts as an error. Folding the results
      one by one from the empty report therefore yields `Summary`. */
  lemma SummaryStep(results: seq<TestResult>, res: TestResult)
    requires |results| + 1 < 0x1_0000_0000
    ensures var before := Summary(results).report;
      Summary(results + [res]) ==
        if Summary(results).ReportOk? then
          var after := before.(successCount := before.successCount + 1, totalTests := before.totalTests + 1);
          if res == Ok then ReportOk(after) else ReportErr(after)
        else
          ReportErr(before.(errorCount := before.errorCount + 1, totalTests := before.totalTests + 1))
  {
    FirstIndexOfSnoc(results, res, Err);
  }

  /** Appending one element to a sequence leaves an earlier first occurrence
      where it was, and otherwise finds `x` at the new element or nowhere. */
  lemma FirstIndexOfSnoc<T>(s: seq<T>, v: T, x: T)
    ensures FirstIndexOf(s + [v], x) ==
              if FirstIndexOf(s, x) < |s| then FirstIndexOf(s, x)
              else if v == x then |s| else |s| + 1
  {
    var k, k' := FirstIndexOf(s, x), FirstIndexOf(s + [v], x);
    if k < |s| {
      assert (s + [v])[k] == x;
    } else if v == x {
      assert (s + [v])[|s|] == x;
    } else {
      assert forall i :: 0 <= i < |s| + 1 ==> (s + [v])[i] != x;
    }
  }
}
