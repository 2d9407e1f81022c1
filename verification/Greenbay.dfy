/** The result of one check, as every part of the program passes it on. */
module Greenbay {

  datatype CheckOutput = CheckOutput(
    completed: bool, passed: bool, check: string, name: string, message: string, error: string,
    suites: seq<string>, start: int, end: int)

  /** Go's zero value, which error units carry. */
  const NO_OUTPUT := CheckOutput(false, false, "", "", "", "", [], 0, 0)
}
