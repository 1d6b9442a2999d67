/** The canonical report model of formatter.go (and its copy in parser.go):
    suites of test cases as decoded from, or projected into, a JUnit document. */
module JUnit {
  import opened Wrappers
  import Decimal

  /** One byte of an input document. */
  newtype byte = b: int | 0 <= b < 256

  /** The error a document decoder reports. */
  datatype XmlError = XmlError(message: string)

  /** A decoder of one document shape: the XML library seen from outside. */
  type Decoder<T> = seq<byte> -> Result<T, XmlError>

  datatype SkipMessage = SkipMessage(message: string)

  datatype Failure = Failure(message: string, kind: string, contents: string)

  datatype Property = Property(name: string, value: string)

  /** A test case. `id` and `outcome` are not part of the document: they are
      empty after decoding and filled in by normalisation. */
  datatype TestCase = TestCase(
    classname: string,
    name: string,
    time: string,
    skipMessage: Option<SkipMessage>,
    id: string,
    outcome: string,
    failure: Option<Failure>)

  /** A suite; `tests` and `failures` are the counts the document declares. */
  datatype TestSuite = TestSuite(
    tests: int,
    failures: int,
    time: string,
    name: string,
    properties: seq<Property>,
    testCases: seq<TestCase>)

  datatype TestSuites = TestSuites(suites: seq<TestSuite>)

  /** A report ready to be rendered under a title. */
  datatype Junit = Junit(report: TestSuites, title: string)

  const FAILED: string := "FAILED"
  const SKIPPED: string := "SKIPPED"
  const SUCCESS: string := "SUCCESS"

  /** The anchor identifier of case `j` of suite `i`: `id_<i>_<j>`. */
  function CaseId(i: nat, j: nat): string {
    "id_" + Decimal.NatToString(i) + "_" + Decimal.NatToString(j)
  }

  /** The outcome a case must carry: exactly one of the three labels, with a
      failure taking priority over a skip. */
  ghost predicate OutcomeConsistent(c: TestCase) {
    && (c.outcome == FAILED <==> c.failure.Some?)
    && (c.outcome == SKIPPED <==> c.failure.None? && c.skipMessage.Some?)
    && (c.outcome == SUCCESS <==> c.failure.None? && c.skipMessage.None?)
  }

  /** A consistent case carries one of the three labels, and which one is
      decided by its failure and skip message alone. */
  lemma ExactlyOneOutcome(c: TestCase)
    requires OutcomeConsistent(c)
    ensures c.outcome in {FAILED, SKIPPED, SUCCESS}
    ensures c.outcome == (if c.failure.Some? then FAILED
                          else if c.skipMessage.Some? then SKIPPED
                          else SUCCESS)
  {
  }

  lemma SeparatorAt(a: string, b: string)
    ensures (a + "_" + b)[|a|] == '_'
  {
  }

  /** Two digit strings joined by `_` can be split back in only one way. */
  lemma {:induction false} SplitUnique(a: string, b: string, a': string, b': string)
    requires Decimal.AllDigits(a) && Decimal.AllDigits(a')
    requires a + "_" + b == a' + "_" + b'
    ensures a == a' && b == b'
  {
    var s := a + "_" + b;
    if |a| < |a'| {
      SeparatorAt(a, b);
      assert false;
    } else if |a'| < |a| {
      SeparatorAt(a', b');
      assert false;
    }
    assert a == s[..|a|] == a';
    assert b == s[|a| + 1..] == b';
  }

  /** Case identifiers are injective in the (suite, case) position. */
  lemma {:induction false} CaseIdInjective(i: nat, j: nat, i': nat, j': nat)
    ensures CaseId(i, j) == CaseId(i', j') <==> i == i' && j == j'
  {
    if CaseId(i, j) == CaseId(i', j') {
      var a, b := Decimal.NatToString(i), Decimal.NatToString(j);
      var a', b' := Decimal.NatToString(i'), Decimal.NatToString(j');
      assert CaseId(i, j)[3..] == a + "_" + b;
      assert CaseId(i', j')[3..] == a' + "_" + b';
      SplitUnique(a, b, a', b');
      Decimal.PrintInjective(i, i');
      Decimal.PrintInjective(j, j');
    }
  }
}
