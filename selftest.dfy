/**
 * The self-test harness: after a scan of the bundled test definitions, the
 * list of all findings and the list of fixable findings are compared with
 * the expected placeholder identifiers, and the two verdicts are combined
 * into one message and exit code.
 */
module SelfTest {
  import opened Text
  import opened Constants
  import Extraction
  import Classifier

  datatype CheckResult = CheckResult(message: string, success: bool)

  const Cve0200: string := "CVE-1970-0200"
  const Cve0300: string := "CVE-1970-0300"
  const Cve0400: string := "CVE-1970-0400"
  const Cve0500: string := "CVE-1970-0500"

  /**
   * `test_filter_active_cves`: passes exactly when the all-list is the two
   * active identifiers 0300 and 0400, in either order; the two exclusion
   * tests are then already implied.
   */
  function TestFilterActiveCves(cveListAllFiltered: seq<string>): (r: CheckResult)
    ensures r.success <==> cveListAllFiltered == [Cve0300, Cve0400] || cveListAllFiltered == [Cve0400, Cve0300]
    ensures r.success ==> r.message == "SUCCESS: Filter Active CVEs"
    ensures !r.success ==> r.message == "FAILURE: Filter Active CVEs"
  {
    if |cveListAllFiltered| == 2
       && Cve0300 in cveListAllFiltered
       && Cve0400 in cveListAllFiltered
       && Cve0200 !in cveListAllFiltered
       && Cve0500 !in cveListAllFiltered
    then CheckResult("SUCCESS: Filter Active CVEs", true)
    else CheckResult("FAILURE: Filter Active CVEs", false)
  }

  /** `test_identify_fixable_cves`: passes exactly when the fixable list is the single identifier 0400. */
  function TestIdentifyFixableCves(cveListFixableFiltered: seq<string>): (r: CheckResult)
    ensures r.success <==> cveListFixableFiltered == [Cve0400]
    ensures r.success ==> r.message == "SUCCESS: Identify Fixable/Updatable CVEs"
    ensures !r.success ==> r.message == "FAILURE: Identify Fixable/Updatable CVEs"
  {
    if |cveListFixableFiltered| == 1 && Cve0400 in cveListFixableFiltered
    then CheckResult("SUCCESS: Identify Fixable/Updatable CVEs", true)
    else CheckResult("FAILURE: Identify Fixable/Updatable CVEs", false)
  }

  /**
   * The aggregation of `run_testmode`: the two verdict messages on two lines,
   * exit code 0 when both checks pass and the error code otherwise.
   */
  function RunTestmode(cveListAllFiltered: seq<string>, cveListFixableFiltered: seq<string>)
    : (r: Classifier.Classification)
    ensures var first := TestFilterActiveCves(cveListAllFiltered);
      var second := TestIdentifyFixableCves(cveListFixableFiltered);
      && r.message == Join([first.message, second.message])
      && (r.code == SuccessReturnCode <==> first.success && second.success)
      && (r.code == ErrorReturnCode <==> !(first.success && second.success))
  {
    var first := TestFilterActiveCves(cveListAllFiltered);
    var second := TestIdentifyFixableCves(cveListFixableFiltered);
    var results := first.message + "\n" + second.message;
    if !(first.success && second.success) then Classifier.Classification(results, ErrorReturnCode)
    else Classifier.Classification(results, 0)
  }

  /** The self test passes exactly on the expected findings of the bundled definitions. */
  lemma TestmodePassesExactly(all: seq<string>, fixable: seq<string>)
    ensures RunTestmode(all, fixable).code == SuccessReturnCode <==>
      (all == [Cve0300, Cve0400] || all == [Cve0400, Cve0300]) && fixable == [Cve0400]
    ensures RunTestmode(all, fixable).code in {SuccessReturnCode, ErrorReturnCode}
  {
  }

  /** The pipeline's expected output for the bundled definitions passes the self test. */
  lemma ReferenceOutputPasses()
    ensures RunTestmode(Extraction.ExtractedLines(Cve0300 + "\n" + Cve0400 + "\n"),
                        Extraction.ExtractedLines(Cve0400 + "\n")).code == SuccessReturnCode
  {
    assert Extraction.IsFindingLine(Cve0300) && Extraction.IsFindingLine(Cve0400);
    assert Join([Cve0300, Cve0400]) == Cve0300 + "\n" + Cve0400;
    Extraction.ExtractionRoundTrip([Cve0300, Cve0400]);
    assert Join([Cve0400]) == Cve0400;
    Extraction.ExtractionRoundTrip([Cve0400]);
  }
}
