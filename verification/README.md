# junit2html report core, modelled in Dafny

This project models the report-normalisation and aggregation layer of
junit2html, a tool that turns JUnit XML documents, or the live output of
`go test`, into an HTML report. It covers four pieces:

- **Case normalisation.** `fixSuitesForHtml` gives every case of suite `i`
  at position `j` the anchor `id_<i>_<j>`. It also gives the case an outcome
  label: FAILED when a failure is present, otherwise SKIPPED when a skip
  message is present, otherwise SUCCESS.
- **Two-shape ingestion.** `NewJunit` first decodes a `<testsuites>`
  document. If that fails, it decodes a bare `<testsuite>` and wraps it as
  the only suite. If both fail, it returns the second error. The model has
  two versions: the formatter.go one, and the parser.go one, which does the
  normalisation inline in loops. They are proved equal.
- **Projection.** `JUnitReportXMLModel` turns the runner's packages into
  one suite per package. It derives the classname and the properties, lists
  the tests and then the merged benchmarks, and counts tests and failures.
- **Benchmark merging.** `mergeBenchmarks` collapses samples that share a
  name into one record per name, in first-seen order. Each metric is the
  sum over the name's samples divided by their number, truncated toward
  zero as Go does.

It also models `ReportContainer.failures` and `skips` from common.go. These
concatenate every suite's list, report by report.

Modules, one per file: `Wrappers` (Option, Result), `Decimal` (printing and
reading back `%d` indices), `JUnit` (the report types of formatter.go and
parser.go, declared once; case identifiers; outcome labels), `Formatter`,
`Parser`, `Runner` (the runner's Package/Test/Benchmark records), `Benchmarks`,
`Projection` and `Common`.

Some things are parameters instead of code:

- The XML decoders are function parameters of type
  `seq<byte> -> Result<T, XmlError>`, one per document shape.
- `runtime.Version()`, `formatTime` and `formatBenchmarkTime` are fields
  of `Projection.Env`.

Ingestion does not recompute a suite's counts. A suite read from a document
keeps the `tests` and `failures` it declares, so its `failures` need not
equal its number of FAILED cases. Only projected suites are proved to have
`failures` equal to the number of FAILED cases (`Projection.ProjectCounts`).

## Model

| member | source | states |
|---|---|---|
| Decimal.ParsePrint | formatter.go:72 | the `%d` rendering of an index reads back as that index, so the rendering is one-to-one |
| JUnit.CaseIdInjective | formatter.go:72 | `id_<i>_<j>` identifiers are equal exactly when the (suite, case) positions are equal |
| Formatter.FixSuitesForHtml | formatter.go:69-82 | the result has the same suites in the same order, each with the same number of cases. Case j of suite i gets id `id_i_j` and outcome FAILED iff it has a failure, SKIPPED iff it has no failure but a skip message, SUCCESS iff it has neither. Every other field is unchanged |
| Formatter.FixNormalises | formatter.go:69-82 | the output of normalisation is already in normal form |
| Formatter.NormalisationUnique | formatter.go:69-82 | the description of normalisation determines the report: two reports that both normalise the same input are equal |
| Formatter.FixIdempotent | formatter.go:69-82 | normalising twice gives the same report as normalising once |
| Formatter.FixedPoints | formatter.go:69-82 | normalisation leaves a report unchanged exactly when the report is already normalised |
| Formatter.IdsUnique | formatter.go:70-72 | in a normalised report, two cases share an identifier only if they are the same case |
| Formatter.NewJunit | formatter.go:84-100 | the result is a report iff one of the two decodes succeeds, and it carries the given title. A multi-suite decode is normalised suite for suite. Otherwise a single-suite decode becomes the one and only suite, normalised. If both fail, the error is the single-suite decode's |
| Parser.NewJunit | parser.go:67-93 | the inline-loop version returns exactly what the formatter.go version returns. Both decodes failing gives the second error; a single-suite fallback gives one normalised suite; the title is carried through |
| Benchmarks.GroupByName | formatter.go:210-217 | the first pass records the distinct names in first-seen order, and for each name exactly that name's samples, none of them empty |
| Benchmarks.SumGroup | formatter.go:220-224 | the second pass totals allocs, bytes and duration over a group |
| Benchmarks.AverageGroup | formatter.go:219-229 | one group's record keeps the name and holds each metric's total over the group divided by the group size, truncated toward zero |
| Benchmarks.MergeBenchmarks | formatter.go:209-232 | the map-based algorithm returns the reference merge: one record per distinct name, holding the truncated per-metric mean of that name's samples |
| Benchmarks.DistinctFirstSeen | formatter.go:212-215 | each occurrence of a later name is preceded by an occurrence of every earlier name, which means the names come in first-occurrence order |
| Benchmarks.MergeNames | formatter.go:209-217 | the output has no more records than the input has samples. A name appears in the output iff it appears in the input, at most once, in first-seen order. Empty input gives empty output |
| Benchmarks.GoDivTruncates | formatter.go:226-228 | Go's integer division leaves a remainder that is smaller than the divisor and has the dividend's sign, so it truncates toward zero |
| Benchmarks.MergeMeans | formatter.go:219-229 | each merged record's group holds exactly the input samples of that name. Each metric times the group size is within one group size of the metric's total, rounded toward zero |
| Benchmarks.SumPermutation | formatter.go:220-224 | a metric's total over a group does not depend on the order of the samples |
| Benchmarks.MergePermutation | formatter.go:209-232 | two orderings of the same samples merge to the same set of names, and name for name to the same record |
| Benchmarks.MergeSingleSample | formatter.go:219-229 | a benchmark sampled only once comes out unchanged |
| Benchmarks.MergeOfDistinct | formatter.go:209-232 | input whose names are already distinct merges to itself |
| Benchmarks.MergeIdempotent | formatter.go:209-232 | merging merged benchmarks changes nothing |
| Benchmarks.MergePair | formatter.go:209-232 | two samples of one benchmark merge to one record of their truncated means |
| Benchmarks.MergeExample | formatter.go:209-232 | samples (10, 100, 5) and (20, 200, 7) of `Bench1` merge to (15, 150, 6) in either order |
| Projection.LastIndexOf | formatter.go:148 | the index found is -1 exactly when the separator is absent; otherwise it holds the separator and no later position does |
| Projection.Classname | formatter.go:147-150 | the classname is the whole package name when it has no `/`. Otherwise it is the part after the last `/`, and it contains no `/` |
| Projection.JUnitReportXMLModel | formatter.go:133-207 | the report has the given title and one suite per package, in package order. Each suite has the package's name and formatted duration, and the report is normalised |
| Projection.ProjectProperties | formatter.go:152-160 | the first property is `go.version`: the given version, or the runtime's when none is given. A second property, `coverage.statements.pct`, is present exactly when the package reports coverage |
| Projection.ProjectCaseLayout | formatter.go:162-196 | a package's cases are as many as its tests plus its merged benchmarks. All of them carry the package's classname and the ids `id_i_k` in order |
| Projection.ProjectTestCase | formatter.go:163-185 | case `k` is test `k` with its name and formatted duration. A FAIL test gets the failure with message `Failed`, empty type and the output lines joined by newlines as contents; a SKIP test gets the joined output as skip message; neither is present otherwise. The outcome is FAILED, SKIPPED or SUCCESS accordingly |
| Projection.ProjectBenchmarkCase | formatter.go:188-196 | the cases after the tests are the merged benchmarks in order, with the benchmark time format. They never fail, are never skipped and are SUCCESS |
| Projection.FailedCasesCount | formatter.go:171-178 | FAILED cases that line up with FAIL tests, followed by cases that never fail, count as many failures as the tests |
| Projection.ProjectCounts | formatter.go:138-178 | a suite's `tests` is the number of tests plus the number of merged benchmarks, which is its case count. Its `failures` is both the number of FAIL tests and the number of FAILED cases |
| Projection.ProjectEmpty | formatter.go:134-136 | projecting no packages yields no suites |
| Common.AppendSuites | common.go:24-26 | the inner loop appends one report's suites' lists, in suite order, to what was collected before |
| Common.Collect | common.go:22-38 | the nested loops build the concatenation, report by report and then suite by suite, of the selected list of each suite |
| Common.Failures | common.go:22-29 | the failures are every suite's `failed()` list, concatenated in report and suite order. The length is the sum of those lists' lengths, a name is reported iff some suite lists it, and an empty container gives nothing |
| Common.Skips | common.go:31-38 | the same as `Failures`, for every suite's `skipped()` list |
| Common.FlattenLength | common.go:22-38 | the flattened list is as long as all the suites' lists together |
| Common.FlattenMember | common.go:22-38 | a given name is in the flattened list exactly when some suite of some report lists it |
| Common.FlattenMembers | common.go:22-38 | a name is in the flattened list exactly when some suite of some report lists it |

## Left out

- XML decoding (`xml.Unmarshal`) is represented by the decoder parameters. A failed decode is treated as leaving nothing behind. The Go library can partly fill its target before it fails, and the fallback appends to that target.
- `Html()`, the embedded templates, sprig, the CSS substitution and `prettyJson` are rendering and debug output, not report logic.
- `formatTime` and `formatBenchmarkTime` print floating-point seconds. They are opaque functions in `Projection.Env`.
- `runtime.Version()` is a foreign call, so it is the `Env.runtimeVersion` field. Updating `goVersion` on the first package means every package gets the same effective version, and `Projection.GoVersion` computes it once.
- All of main.go is left out: the ticking publication loop, the goroutines and the atomic done flag, file writes, opening a viewer, flag parsing, and the sentinel swap in rendered HTML. These are concurrency and I/O.
- `JUnitReportXMLModel` always returns a nil error, so the model returns the report directly.
- The assignment `pkg.Benchmarks = mergeBenchmarks(...)` (formatter.go:137) stores the merged list back into the package. Whether the caller sees that depends on the runner's `Package` type, which is not part of this model. The projection reads the merged list without storing it. `Benchmarks.MergeIdempotent` shows that a stored merge would be unchanged by a later merge when no new samples arrive.
- The runner's `Package`, `Test` and `Benchmark` types and the `FAIL`/`SKIP` constants are declared outside formatter.go, parser.go and common.go. `Runner` declares minimal versions, and any result other than FAIL or SKIP is `Pass`.
- Benchmarks.MergeBenchmarks: does not model 64-bit overflow when totalling allocs, bytes or nanosecond durations, because integers are unbounded here. Go pointers to benchmark records are values here.
- Common.Failures: the `Report` and `Suite` interfaces are taken to be pure. Their `suites()`, `failed()` and `skipped()` results are the fields of `Common.Report` and `Common.Suite`. A container is immutable, so neither method can change it.
- The XML name fields of the Go structs carry nothing the core reads and are omitted.
