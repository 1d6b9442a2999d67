/** JUnitReportXMLModel of formatter.go: the projection of a test runner's
    packages into a report, one suite per package, before rendering. */
module Projection {
  import opened Wrappers
  import opened JUnit
  import opened Runner
  import Formatter
  import Benchmarks

  /** What the projection takes from outside the model: the version the Go
      runtime reports, and the rendering of durations as seconds with three
      and with nine decimals. */
  datatype Env = Env(
    runtimeVersion: string,
    formatTime: int -> string,
    formatBenchmarkTime: int -> string)

  // ---------------------------------------------------------------------------
  // Helpers.

  /** The index of the last `c` in `s`, or -1. */
  function LastIndexOf(s: string, c: char): (idx: int)
    ensures -1 <= idx < |s|
    ensures idx == -1 <==> c !in s
    ensures idx >= 0 ==> s[idx] == c && c !in s[idx + 1..]
  {
    if |s| == 0 then -1
    else if s[|s| - 1] == c then |s| - 1
    else LastIndexOf(s[..|s| - 1], c)
  }

  /** The classname of a package's cases: its last path segment. */
  function Classname(name: string): (r: string)
    ensures '/' !in name ==> r == name
    ensures '/' in name ==>
              && '/' !in r
              && |r| < |name|
              && name[|name| - |r| - 1] == '/'
              && name[|name| - |r|..] == r
  {
    var idx := LastIndexOf(name, '/');
    if idx > -1 && idx < |name| then name[idx + 1..] else name
  }

  /** The parts separated by `sep`, as `strings.Join` writes them. */
  function Join(parts: seq<string>, sep: string): string {
    if |parts| == 0 then ""
    else if |parts| == 1 then parts[0]
    else parts[0] + sep + Join(parts[1..], sep)
  }

  /** The number of `true`s. */
  function Count(bs: seq<bool>): nat {
    if |bs| == 0 then 0 else Count(bs[..|bs| - 1]) + (if bs[|bs| - 1] then 1 else 0)
  }

  lemma {:induction false} CountAppend(a: seq<bool>, b: seq<bool>)
    ensures Count(a + b) == Count(a) + Count(b)
    decreases |b|
  {
    if |b| == 0 {
      assert a + b == a;
    } else {
      assert (a + b)[..|a + b| - 1] == a + b[..|b| - 1];
      CountAppend(a, b[..|b| - 1]);
    }
  }

  lemma {:induction false} CountNone(bs: seq<bool>)
    requires forall k :: 0 <= k < |bs| ==> !bs[k]
    ensures Count(bs) == 0
    decreases |bs|
  {
    if |bs| > 0 {
      CountNone(bs[..|bs| - 1]);
    }
  }

  function CountFailedTests(tests: seq<Test>): nat {
    Count(seq(|tests|, k requires 0 <= k < |tests| => tests[k].result == Fail))
  }

  function CountOutcome(cases: seq<TestCase>, outcome: string): nat {
    Count(seq(|cases|, k requires 0 <= k < |cases| => cases[k].outcome == outcome))
  }

  // ---------------------------------------------------------------------------
  // The projection.

  /** The `go.version` the report states: the given one, else the runtime's. */
  function GoVersion(goVersion: string, env: Env): string {
    if goVersion == "" then env.runtimeVersion else goVersion
  }

  function Properties(goVersion: string, coveragePct: string): seq<Property> {
    [Property("go.version", goVersion)]
    + if coveragePct != "" then [Property("coverage.statements.pct", coveragePct)] else []
  }

  function TestCaseOf(t: Test, classname: string, env: Env): TestCase {
    TestCase(
      classname := classname,
      name := t.name,
      time := env.formatTime(t.duration),
      skipMessage := if t.result == Skip then Some(SkipMessage(Join(t.output, "\n"))) else None,
      id := "",
      outcome := "",
      failure := if t.result == Fail then Some(Failure("Failed", "", Join(t.output, "\n"))) else None)
  }

  function BenchmarkCaseOf(b: Benchmark, classname: string, env: Env): TestCase {
    TestCase(classname, b.name, env.formatBenchmarkTime(b.duration), None, "", "", None)
  }

  /** The suite of one package, before normalisation. */
  function SuiteOf(pkg: Package, goVersion: string, env: Env): TestSuite {
    var benchmarks := Benchmarks.Merge(pkg.benchmarks);
    var classname := Classname(pkg.name);
    TestSuite(
      tests := |pkg.tests| + |benchmarks|,
      failures := CountFailedTests(pkg.tests),
      time := env.formatTime(pkg.duration),
      name := pkg.name,
      properties := Properties(goVersion, pkg.coveragePct),
      testCases :=
        seq(|pkg.tests|, k requires 0 <= k < |pkg.tests| => TestCaseOf(pkg.tests[k], classname, env))
        + seq(|benchmarks|, k requires 0 <= k < |benchmarks| => BenchmarkCaseOf(benchmarks[k], classname, env)))
  }

  function RawSuites(report: Runner.Report, goVersion: string, env: Env): TestSuites {
    var version := GoVersion(goVersion, env);
    TestSuites(seq(|report.packages|, i requires 0 <= i < |report.packages| =>
      SuiteOf(report.packages[i], version, env)))
  }

  /** The report of a run: one normalised suite per package, in order. */
  function JUnitReportXMLModel(report: Runner.Report, goVersion: string, title: string, env: Env): (j: Junit)
    ensures j.title == title
    ensures |j.report.suites| == |report.packages|
    ensures forall i :: 0 <= i < |report.packages| ==>
              && j.report.suites[i].name == report.packages[i].name
              && j.report.suites[i].time == env.formatTime(report.packages[i].duration)
    ensures Formatter.Normalised(j.report)
  {
    var r := Formatter.FixSuitesForHtml(RawSuites(report, goVersion, env));
    Formatter.FixNormalises(RawSuites(report, goVersion, env));
    Junit(r, title)
  }

  // ---------------------------------------------------------------------------
  // Properties of the projection.

  /** No packages, no suites. */
  lemma ProjectEmpty(goVersion: string, title: string, env: Env)
    ensures JUnitReportXMLModel(Runner.Report([]), goVersion, title, env).report.suites == []
  {
  }

  /** The properties: the Go version, falling back on the runtime's, then the
      coverage only when one was reported. */
  lemma ProjectProperties(report: Runner.Report, goVersion: string, title: string, env: Env, i: nat)
    requires i < |report.packages|
    ensures var ps := JUnitReportXMLModel(report, goVersion, title, env).report.suites[i].properties;
      && 1 <= |ps| <= 2
      && ps[0].name == "go.version"
      && (goVersion != "" ==> ps[0].value == goVersion)
      && (goVersion == "" ==> ps[0].value == env.runtimeVersion)
      && (|ps| == 2 <==> report.packages[i].coveragePct != "")
      && (|ps| == 2 ==> ps[1] == Property("coverage.statements.pct", report.packages[i].coveragePct))
  {
    var raw := RawSuites(report, goVersion, env);
    assert Formatter.SuiteNormalised(raw.suites[i], Formatter.FixSuitesForHtml(raw).suites[i], i);
  }

  /** Suite `i` of the report is the normalisation of package `i`'s suite. */
  lemma SuiteAt(report: Runner.Report, goVersion: string, title: string, env: Env, i: nat)
    requires i < |report.packages|
    ensures Formatter.SuiteNormalised(
      SuiteOf(report.packages[i], GoVersion(goVersion, env), env),
      JUnitReportXMLModel(report, goVersion, title, env).report.suites[i], i)
  {
    var raw := RawSuites(report, goVersion, env);
    assert Formatter.SuiteNormalised(raw.suites[i], Formatter.FixSuitesForHtml(raw).suites[i], i);
  }

  /** The cases of a package's suite are its tests and then its merged
      benchmarks, all under the package's classname and numbered in order. */
  lemma ProjectCaseLayout(report: Runner.Report, goVersion: string, title: string, env: Env, i: nat)
    requires i < |report.packages|
    ensures var pkg, s := report.packages[i], JUnitReportXMLModel(report, goVersion, title, env).report.suites[i];
      && |s.testCases| == |pkg.tests| + |Benchmarks.Merge(pkg.benchmarks)|
      && (forall k :: 0 <= k < |s.testCases| ==>
            s.testCases[k].classname == Classname(pkg.name) && s.testCases[k].id == CaseId(i, k))
  {
    var pkg := report.packages[i];
    var merged := Benchmarks.Merge(pkg.benchmarks);
    var raw := SuiteOf(pkg, GoVersion(goVersion, env), env);
    var s := JUnitReportXMLModel(report, goVersion, title, env).report.suites[i];
    SuiteAt(report, goVersion, title, env, i);
    forall k | 0 <= k < |s.testCases|
      ensures s.testCases[k].classname == Classname(pkg.name) && s.testCases[k].id == CaseId(i, k)
    {
      assert Formatter.CaseNormalised(raw.testCases[k], s.testCases[k], i, k);
      if k < |pkg.tests| {
        assert raw.testCases[k] == TestCaseOf(pkg.tests[k], Classname(pkg.name), env);
      } else {
        assert raw.testCases[k] == BenchmarkCaseOf(merged[k - |pkg.tests|], Classname(pkg.name), env);
      }
    }
  }

  /** Case `k` of a package's suite is its test `k`. A FAIL test carries the
      failure "Failed" whose contents are the test's output lines joined by
      newlines; a SKIP test carries that joined output as its skip message.
      The outcome says which. */
  lemma ProjectTestCase(report: Runner.Report, goVersion: string, title: string, env: Env, i: nat, k: nat)
    requires i < |report.packages| && k < |report.packages[i].tests|
    ensures var t, s := report.packages[i].tests[k], JUnitReportXMLModel(report, goVersion, title, env).report.suites[i];
      && k < |s.testCases|
      && s.testCases[k].name == t.name
      && s.testCases[k].time == env.formatTime(t.duration)
      && s.testCases[k].failure
         == (if t.result == Fail then Some(Failure("Failed", "", Join(t.output, "\n"))) else None)
      && s.testCases[k].skipMessage
         == (if t.result == Skip then Some(SkipMessage(Join(t.output, "\n"))) else None)
      && (s.testCases[k].failure.Some? <==> t.result == Fail)
      && (s.testCases[k].skipMessage.Some? <==> t.result == Skip)
      && (s.testCases[k].outcome == FAILED <==> t.result == Fail)
      && (s.testCases[k].outcome == SKIPPED <==> t.result == Skip)
      && (s.testCases[k].outcome == SUCCESS <==> t.result == Pass)
  {
    var pkg := report.packages[i];
    var raw := SuiteOf(pkg, GoVersion(goVersion, env), env);
    var s := JUnitReportXMLModel(report, goVersion, title, env).report.suites[i];
    SuiteAt(report, goVersion, title, env, i);
    assert raw.testCases[k] == TestCaseOf(pkg.tests[k], Classname(pkg.name), env);
    assert Formatter.CaseNormalised(raw.testCases[k], s.testCases[k], i, k);
  }

  /** The cases after the tests are the merged benchmarks in order; they never
      fail, are never skipped and count as successes. */
  lemma ProjectBenchmarkCase(report: Runner.Report, goVersion: string, title: string, env: Env, i: nat, k: nat)
    requires i < |report.packages| && k < |Benchmarks.Merge(report.packages[i].benchmarks)|
    ensures var pkg, s := report.packages[i], JUnitReportXMLModel(report, goVersion, title, env).report.suites[i];
      var b := Benchmarks.Merge(pkg.benchmarks)[k];
      && |pkg.tests| + k < |s.testCases|
      && s.testCases[|pkg.tests| + k].name == b.name
      && s.testCases[|pkg.tests| + k].time == env.formatBenchmarkTime(b.duration)
      && s.testCases[|pkg.tests| + k].failure.None?
      && s.testCases[|pkg.tests| + k].skipMessage.None?
      && s.testCases[|pkg.tests| + k].outcome == SUCCESS
  {
    var pkg := report.packages[i];
    var merged := Benchmarks.Merge(pkg.benchmarks);
    var raw := SuiteOf(pkg, GoVersion(goVersion, env), env);
    var s := JUnitReportXMLModel(report, goVersion, title, env).report.suites[i];
    var m := |pkg.tests| + k;
    SuiteAt(report, goVersion, title, env, i);
    assert raw.testCases[m] == BenchmarkCaseOf(merged[k], Classname(pkg.name), env);
    assert Formatter.CaseNormalised(raw.testCases[m], s.testCases[m], i, m);
  }

  /** A suite counts its tests and merged benchmarks, and its failure count is
      both the number of FAIL tests and the number of FAILED cases. */
  lemma ProjectCounts(report: Runner.Report, goVersion: string, title: string, env: Env, i: nat)
    requires i < |report.packages|
    ensures var pkg, s := report.packages[i], JUnitReportXMLModel(report, goVersion, title, env).report.suites[i];
      && s.tests == |pkg.tests| + |Benchmarks.Merge(pkg.benchmarks)| == |s.testCases|
      && s.failures == CountFailedTests(pkg.tests) == CountOutcome(s.testCases, FAILED)
  {
    var pkg := report.packages[i];
    var s := JUnitReportXMLModel(report, goVersion, title, env).report.suites[i];
    SuiteAt(report, goVersion, title, env, i);
    forall k | 0 <= k < |pkg.tests|
      ensures s.testCases[k].outcome == FAILED <==> pkg.tests[k].result == Fail
    {
      ProjectTestCase(report, goVersion, title, env, i, k);
    }
    forall k | |pkg.tests| <= k < |s.testCases|
      ensures s.testCases[k].outcome != FAILED
    {
      ProjectBenchmarkCase(report, goVersion, title, env, i, k - |pkg.tests|);
    }
    FailedCasesCount(s.testCases, pkg.tests);
  }

  /** Cases whose FAILED outcomes line up with FAIL tests, followed by cases
      that never fail, count as many failures as the tests do. */
  lemma FailedCasesCount(cases: seq<TestCase>, tests: seq<Test>)
    requires |tests| <= |cases|
    requires forall k :: 0 <= k < |tests| ==> (cases[k].outcome == FAILED <==> tests[k].result == Fail)
    requires forall k :: |tests| <= k < |cases| ==> cases[k].outcome != FAILED
    ensures CountOutcome(cases, FAILED) == CountFailedTests(tests)
  {
    var failedTests := seq(|tests|, k requires 0 <= k < |tests| => tests[k].result == Fail);
    var none := seq(|cases| - |tests|, k requires 0 <= k < |cases| - |tests| => false);
    var failedCases := seq(|cases|, k requires 0 <= k < |cases| => cases[k].outcome == FAILED);
    assert failedCases == failedTests + none;
    CountAppend(failedTests, none);
    CountNone(none);
  }
}
