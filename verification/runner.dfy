/** The records a test runner produces while it runs: packages of tests and
    benchmark samples. Only the fields the report builder reads are kept. */
module Runner {

  /** The result of one test; the builder distinguishes only FAIL and SKIP. */
  datatype TestResult = Pass | Fail | Skip

  /** `duration` is a Go `time.Duration`: a whole number of nanoseconds. */
  datatype Test = Test(name: string, duration: int, result: TestResult, output: seq<string>)

  /** One benchmark sample; several samples may share a name. */
  datatype Benchmark = Benchmark(name: string, allocs: int, bytes: int, duration: int)

  /** `coveragePct` is empty when no coverage was reported. */
  datatype Package = Package(
    name: string,
    duration: int,
    coveragePct: string,
    tests: seq<Test>,
    benchmarks: seq<Benchmark>)

  datatype Report = Report(packages: seq<Package>)
}
