/** ReportContainer of common.go: the failures and skips of a set of reports,
    flattened report by report and suite by suite. The `Report` and `Suite`
    interfaces are seen through the values their methods return. */
module Common {

  /** What a suite's `failed()` and `skipped()` return. */
  datatype Suite = Suite(failed: seq<string>, skipped: seq<string>)

  /** What a report's `suites()` returns. */
  datatype Report = Report(suites: seq<Suite>)

  datatype ReportContainer = ReportContainer(reports: seq<Report>)

  /** Which list of a suite is being collected. */
  datatype Kind = Failed | Skipped

  function Pick(s: Suite, kind: Kind): seq<string> {
    match kind
    case Failed => s.failed
    case Skipped => s.skipped
  }

  // ---------------------------------------------------------------------------
  // Reference definitions: concatenation, and the total length.

  function FlattenSuites(suites: seq<Suite>, kind: Kind): seq<string> {
    if |suites| == 0 then []
    else FlattenSuites(suites[..|suites| - 1], kind) + Pick(suites[|suites| - 1], kind)
  }

  function Flatten(reports: seq<Report>, kind: Kind): seq<string> {
    if |reports| == 0 then []
    else Flatten(reports[..|reports| - 1], kind) + FlattenSuites(reports[|reports| - 1].suites, kind)
  }

  function SuitesTotal(suites: seq<Suite>, kind: Kind): nat {
    if |suites| == 0 then 0
    else SuitesTotal(suites[..|suites| - 1], kind) + |Pick(suites[|suites| - 1], kind)|
  }

  function Total(reports: seq<Report>, kind: Kind): nat {
    if |reports| == 0 then 0
    else Total(reports[..|reports| - 1], kind) + SuitesTotal(reports[|reports| - 1].suites, kind)
  }

  // ---------------------------------------------------------------------------
  // The loops of common.go.

  /** The inner loop: one report's suites, appended in order. */
  method AppendSuites(found: seq<string>, suites: seq<Suite>, kind: Kind) returns (r: seq<string>)
    ensures r == found + FlattenSuites(suites, kind)
  {
    r := found;
    var j := 0;
    while j < |suites|
      invariant 0 <= j <= |suites|
      invariant r == found + FlattenSuites(suites[..j], kind)
    {
      assert suites[..j + 1][..j] == suites[..j];
      r := r + Pick(suites[j], kind);
      j := j + 1;
    }
    assert suites[..j] == suites;
  }

  /** The outer loop: every report, in order. */
  method Collect(c: ReportContainer, kind: Kind) returns (found: seq<string>)
    ensures found == Flatten(c.reports, kind)
  {
    found := [];
    var i := 0;
    while i < |c.reports|
      invariant 0 <= i <= |c.reports|
      invariant found == Flatten(c.reports[..i], kind)
    {
      assert c.reports[..i + 1][..i] == c.reports[..i];
      found := AppendSuites(found, c.reports[i].suites, kind);
      i := i + 1;
    }
    assert c.reports[..i] == c.reports;
  }

  /** Every failure, report by report and suite by suite. */
  method Failures(c: ReportContainer) returns (found: seq<string>)
    ensures found == Flatten(c.reports, Failed)
    ensures |found| == Total(c.reports, Failed)
    ensures forall x :: x in found <==>
      exists i, j :: 0 <= i < |c.reports| && 0 <= j < |c.reports[i].suites| && x in Pick(c.reports[i].suites[j], Failed)
    ensures c.reports == [] ==> found == []
  {
    found := Collect(c, Failed);
    FlattenLength(c.reports, Failed);
    FlattenMembers(c.reports, Failed);
  }

  /** Every skip, report by report and suite by suite. */
  method Skips(c: ReportContainer) returns (found: seq<string>)
    ensures found == Flatten(c.reports, Skipped)
    ensures |found| == Total(c.reports, Skipped)
    ensures forall x :: x in found <==>
      exists i, j :: 0 <= i < |c.reports| && 0 <= j < |c.reports[i].suites| && x in Pick(c.reports[i].suites[j], Skipped)
    ensures c.reports == [] ==> found == []
  {
    found := Collect(c, Skipped);
    FlattenLength(c.reports, Skipped);
    FlattenMembers(c.reports, Skipped);
  }

  // ---------------------------------------------------------------------------
  // Properties of the flattening.

  lemma {:induction false} FlattenSuitesLength(suites: seq<Suite>, kind: Kind)
    ensures |FlattenSuites(suites, kind)| == SuitesTotal(suites, kind)
    decreases |suites|
  {
    if |suites| > 0 {
      FlattenSuitesLength(suites[..|suites| - 1], kind);
    }
  }

  /** The result is as long as all the suites' lists together. */
  lemma {:induction false} FlattenLength(reports: seq<Report>, kind: Kind)
    ensures |Flatten(reports, kind)| == Total(reports, kind)
    decreases |reports|
  {
    if |reports| > 0 {
      FlattenLength(reports[..|reports| - 1], kind);
      FlattenSuitesLength(reports[|reports| - 1].suites, kind);
    }
  }

  /** Some suite of the given ones lists `x`. */
  ghost predicate InSomeSuite(suites: seq<Suite>, kind: Kind, x: string) {
    exists j :: 0 <= j < |suites| && x in Pick(suites[j], kind)
  }

  /** Some suite of some report lists `x`. */
  ghost predicate InSomeReport(reports: seq<Report>, kind: Kind, x: string) {
    exists i, j :: 0 <= i < |reports| && 0 <= j < |reports[i].suites| && x in Pick(reports[i].suites[j], kind)
  }

  lemma {:induction false} FlattenSuitesMember(suites: seq<Suite>, kind: Kind, x: string)
    ensures x in FlattenSuites(suites, kind) <==> InSomeSuite(suites, kind, x)
    decreases |suites|
  {
    if |suites| > 0 {
      var init := suites[..|suites| - 1];
      FlattenSuitesMember(init, kind, x);
      if InSomeSuite(init, kind, x) {
        var j :| 0 <= j < |init| && x in Pick(init[j], kind);
        assert suites[j] == init[j];
      }
      if InSomeSuite(suites, kind, x) {
        var j :| 0 <= j < |suites| && x in Pick(suites[j], kind);
        if j < |init| {
          assert init[j] == suites[j];
        }
      }
    }
  }

  lemma {:induction false} FlattenMember(reports: seq<Report>, kind: Kind, x: string)
    ensures x in Flatten(reports, kind) <==> InSomeReport(reports, kind, x)
    decreases |reports|
  {
    if |reports| > 0 {
      var init := reports[..|reports| - 1];
      var last := reports[|reports| - 1];
      assert Flatten(reports, kind) == Flatten(init, kind) + FlattenSuites(last.suites, kind);
      FlattenMember(init, kind, x);
      FlattenSuitesMember(last.suites, kind, x);
      if InSomeReport(init, kind, x) {
        var i, j :| 0 <= i < |init| && 0 <= j < |init[i].suites| && x in Pick(init[i].suites[j], kind);
        assert reports[i] == init[i];
        assert InSomeReport(reports, kind, x);
      }
      if InSomeSuite(last.suites, kind, x) {
        var j :| 0 <= j < |last.suites| && x in Pick(last.suites[j], kind);
        assert InSomeReport(reports, kind, x) by {
          assert reports[|reports| - 1] == last;
        }
      }
      if InSomeReport(reports, kind, x) {
        var i, j :| 0 <= i < |reports| && 0 <= j < |reports[i].suites| && x in Pick(reports[i].suites[j], kind);
        if i < |init| {
          assert init[i] == reports[i];
          assert InSomeReport(init, kind, x);
        } else {
          assert reports[i] == last;
          assert x in Pick(last.suites[j], kind);
        }
      }
    }
  }

  /** A name is reported exactly when some suite of some report lists it. */
  lemma FlattenMembers(reports: seq<Report>, kind: Kind)
    ensures forall x :: x in Flatten(reports, kind) <==>
      exists i, j :: 0 <= i < |reports| && 0 <= j < |reports[i].suites| && x in Pick(reports[i].suites[j], kind)
  {
    forall x
      ensures x in Flatten(reports, kind) <==> InSomeReport(reports, kind, x)
    {
      FlattenMember(reports, kind, x);
    }
  }
}
