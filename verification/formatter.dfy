/** Case normalisation and two-shape ingestion of formatter.go: every case gets
    its positional identifier and its outcome label, and a document is read as
    a multi-suite report or, failing that, as one bare suite. */
module Formatter {
  import opened Wrappers
  import opened JUnit

  // ---------------------------------------------------------------------------
  // What a normalised report is, independently of how it is computed.

  /** `b` is case `j` of suite `i` after normalising `a`: it carries the
      positional identifier and a consistent outcome, and nothing else moved. */
  ghost predicate CaseNormalised(a: TestCase, b: TestCase, i: nat, j: nat) {
    && b.id == CaseId(i, j)
    && OutcomeConsistent(b)
    && b.classname == a.classname
    && b.name == a.name
    && b.time == a.time
    && b.skipMessage == a.skipMessage
    && b.failure == a.failure
  }

  /** `b` is suite `i` after normalising `a`: same suite fields, same number of
      cases, each case normalised at its own position. */
  ghost predicate SuiteNormalised(a: TestSuite, b: TestSuite, i: nat) {
    && b.tests == a.tests
    && b.failures == a.failures
    && b.time == a.time
    && b.name == a.name
    && b.properties == a.properties
    && |b.testCases| == |a.testCases|
    && forall j :: 0 <= j < |b.testCases| ==> CaseNormalised(a.testCases[j], b.testCases[j], i, j)
  }

  /** `r` is the normalisation of `raw`: same suites in the same order. */
  ghost predicate NormalisationOf(raw: TestSuites, r: TestSuites) {
    && |r.suites| == |raw.suites|
    && forall i :: 0 <= i < |r.suites| ==> SuiteNormalised(raw.suites[i], r.suites[i], i)
  }

  /** A report that is already in normal form. */
  ghost predicate Normalised(r: TestSuites) {
    NormalisationOf(r, r)
  }

  // ---------------------------------------------------------------------------
  // The computation (formatter.go, fixSuitesForHtml).

  function Classify(c: TestCase): string {
    if c.failure.Some? then FAILED
    else if c.skipMessage.Some? then SKIPPED
    else SUCCESS
  }

  function NormaliseCase(c: TestCase, i: nat, j: nat): TestCase {
    c.(id := CaseId(i, j), outcome := Classify(c))
  }

  function NormaliseSuite(s: TestSuite, i: nat): TestSuite {
    s.(testCases := seq(|s.testCases|, j requires 0 <= j < |s.testCases| => NormaliseCase(s.testCases[j], i, j)))
  }

  /** Assigns every case its identifier and outcome. */
  function FixSuitesForHtml(report: TestSuites): (r: TestSuites)
    ensures NormalisationOf(report, r)
  {
    TestSuites(seq(|report.suites|, i requires 0 <= i < |report.suites| => NormaliseSuite(report.suites[i], i)))
  }

  // ---------------------------------------------------------------------------
  // Properties of normalisation.

  /** The normal form is unique: the description determines the report. */
  lemma NormalisationUnique(raw: TestSuites, a: TestSuites, b: TestSuites)
    requires NormalisationOf(raw, a) && NormalisationOf(raw, b)
    ensures a == b
  {
    forall i | 0 <= i < |a.suites|
      ensures a.suites[i] == b.suites[i]
    {
      var sa, sb := a.suites[i], b.suites[i];
      assert SuiteNormalised(raw.suites[i], sa, i) && SuiteNormalised(raw.suites[i], sb, i);
      forall j | 0 <= j < |sa.testCases|
        ensures sa.testCases[j] == sb.testCases[j]
      {
        var ca, cb := sa.testCases[j], sb.testCases[j];
        assert CaseNormalised(raw.suites[i].testCases[j], ca, i, j);
        assert CaseNormalised(raw.suites[i].testCases[j], cb, i, j);
        assert ca.outcome == cb.outcome by {
          ExactlyOneOutcome(ca);
          ExactlyOneOutcome(cb);
        }
      }
      assert sa.testCases == sb.testCases;
    }
    assert a.suites == b.suites;
  }

  /** The result of normalisation is in normal form. */
  lemma FixNormalises(report: TestSuites)
    ensures Normalised(FixSuitesForHtml(report))
  {
    var once := FixSuitesForHtml(report);
    forall i | 0 <= i < |once.suites|
      ensures SuiteNormalised(once.suites[i], once.suites[i], i)
    {
      assert SuiteNormalised(report.suites[i], once.suites[i], i);
    }
  }

  /** Normalising twice is normalising once. */
  lemma FixIdempotent(report: TestSuites)
    ensures FixSuitesForHtml(FixSuitesForHtml(report)) == FixSuitesForHtml(report)
  {
    var once := FixSuitesForHtml(report);
    FixNormalises(report);
    NormalisationUnique(once, once, FixSuitesForHtml(once));
  }

  /** A report is left alone by normalisation exactly when it is normalised. */
  lemma FixedPoints(report: TestSuites)
    ensures FixSuitesForHtml(report) == report <==> Normalised(report)
  {
    if Normalised(report) {
      NormalisationUnique(report, report, FixSuitesForHtml(report));
    }
  }

  /** Identifiers are unique across the whole report. */
  lemma IdsUnique(raw: TestSuites, r: TestSuites, i: nat, j: nat, i': nat, j': nat)
    requires NormalisationOf(raw, r)
    requires i < |r.suites| && j < |r.suites[i].testCases|
    requires i' < |r.suites| && j' < |r.suites[i'].testCases|
    ensures r.suites[i].testCases[j].id == r.suites[i'].testCases[j'].id <==> i == i' && j == j'
  {
    assert SuiteNormalised(raw.suites[i], r.suites[i], i);
    assert SuiteNormalised(raw.suites[i'], r.suites[i'], i');
    CaseIdInjective(i, j, i', j');
  }

  // ---------------------------------------------------------------------------
  // Ingestion (formatter.go, NewJunit).

  /** The document as decoded, before normalisation: the multi-suite shape
      first, then a bare suite wrapped as the only entry; the second error
      wins when neither shape fits. */
  function Decode(xmlData: seq<byte>, decodeSuites: Decoder<TestSuites>, decodeSuite: Decoder<TestSuite>)
    : Result<TestSuites, XmlError>
  {
    match decodeSuites(xmlData)
    case Ok(report) => Ok(report)
    case Err(_) =>
      match decodeSuite(xmlData)
      case Ok(single) => Ok(TestSuites([single]))
      case Err(e) => Err(e)
  }

  function NewJunit(xmlData: seq<byte>, title: string,
                    decodeSuites: Decoder<TestSuites>, decodeSuite: Decoder<TestSuite>)
    : (r: Result<Junit, XmlError>)
    ensures r.Ok? <==> decodeSuites(xmlData).Ok? || decodeSuite(xmlData).Ok?
    ensures r.Ok? ==> r.value.title == title
    ensures decodeSuites(xmlData).Ok? ==>
              r.Ok? && NormalisationOf(decodeSuites(xmlData).value, r.value.report)
    ensures decodeSuites(xmlData).Err? && decodeSuite(xmlData).Ok? ==>
              && r.Ok?
              && |r.value.report.suites| == 1
              && SuiteNormalised(decodeSuite(xmlData).value, r.value.report.suites[0], 0)
    ensures decodeSuites(xmlData).Err? && decodeSuite(xmlData).Err? ==>
              r == Err(decodeSuite(xmlData).error)
  {
    match Decode(xmlData, decodeSuites, decodeSuite)
    case Ok(report) => Ok(Junit(FixSuitesForHtml(report), title))
    case Err(e) => Err(e)
  }
}
