/** parser.go's NewJunit: the same two-shape fallback, with the identifier and
    outcome pass written inline as nested loops over the decoded report. */
module Parser {
  import opened Wrappers
  import opened JUnit
  import Formatter

  method NewJunit(xmlData: seq<byte>, title: string,
                  decodeSuites: Decoder<TestSuites>, decodeSuite: Decoder<TestSuite>)
    returns (r: Result<Junit, XmlError>)
    ensures r == Formatter.NewJunit(xmlData, title, decodeSuites, decodeSuite)
    ensures decodeSuites(xmlData).Err? && decodeSuite(xmlData).Err? ==>
              r == Err(decodeSuite(xmlData).error)
    ensures decodeSuites(xmlData).Err? && decodeSuite(xmlData).Ok? ==>
              && r.Ok?
              && |r.value.report.suites| == 1
              && Formatter.SuiteNormalised(decodeSuite(xmlData).value, r.value.report.suites[0], 0)
    ensures r.Ok? ==> r.value.title == title
  {
    var report: TestSuites;
    match decodeSuites(xmlData) {
      case Ok(multi) =>
        report := multi;
      case Err(_) =>
        match decodeSuite(xmlData) {
          case Err(e) =>
            return Err(e);
          case Ok(single) =>
            report := TestSuites([single]);
        }
    }
    ghost var raw := report;
    assert raw == Formatter.Decode(xmlData, decodeSuites, decodeSuite).value;

    var suites := report.suites;
    var i := 0;
    while i < |suites|
      invariant 0 <= i <= |suites| == |raw.suites|
      invariant forall k :: 0 <= k < i ==> suites[k] == Formatter.NormaliseSuite(raw.suites[k], k)
      invariant forall k :: i <= k < |suites| ==> suites[k] == raw.suites[k]
    {
      var cases := suites[i].testCases;
      var j := 0;
      while j < |cases|
        invariant 0 <= j <= |cases| == |raw.suites[i].testCases|
        invariant forall t :: 0 <= t < j ==> cases[t] == Formatter.NormaliseCase(raw.suites[i].testCases[t], i, t)
        invariant forall t :: j <= t < |cases| ==> cases[t] == raw.suites[i].testCases[t]
      {
        var c := cases[j];
        var outcome;
        if c.failure.Some? {
          outcome := FAILED;
        } else if c.skipMessage.Some? {
          outcome := SKIPPED;
        } else {
          outcome := SUCCESS;
        }
        cases := cases[j := c.(id := CaseId(i, j), outcome := outcome)];
        j := j + 1;
      }
      assert cases == Formatter.NormaliseSuite(raw.suites[i], i).testCases;
      suites := suites[i := suites[i].(testCases := cases)];
      i := i + 1;
    }
    assert suites == Formatter.FixSuitesForHtml(raw).suites;
    r := Ok(Junit(TestSuites(suites), title));
  }
}
