/**
 * The result classifier: from the list of all findings, the list of fixable
 * findings, the run options and the number of inspected packages it decides
 * the final message and the process exit code.
 */
module Classifier {
  import opened Wrappers
  import opened Text
  import opened Constants
  import Extraction

  datatype Classification = Classification(message: string, code: int)

  /** The options the classifier reads; `cve` is `None` when no CVE was asked for. */
  datatype Options = Options(nagios: bool, cve: Option<string>, allCve: bool, priority: string)

  /** The Python exceptions an as-written branch can raise. */
  datatype PyError = AttributeError(attribute: string) | NameError(name: string)

  /** The outcome of running a Python function: a returned value or a raised exception. */
  datatype Outcome = Returned(result: Classification) | Raised(error: PyError)

  /** Python's `if opt.cve:` — neither `None` nor the empty string is taken. */
  predicate CveRequested(opt: Options) {
    opt.cve.Some? && opt.cve.value != ""
  }

  // ----- Nagios mode -----

  function NagiosOkMessage(priority: string): string {
    "OK: no known " + priority + " or higher CVEs that can be fixed by updating"
  }

  const CriticalTag: string := "CRITICAL: "

  function NagiosCriticalHeader(count: nat, priority: string): string {
    CriticalTag + NatToString(count) + NagiosCriticalWording(priority)
  }

  function NagiosCriticalWording(priority: string): string {
    " CVEs with priority " + priority + " or higher that can be fixed with package updates"
  }

  /** `return (msg, const.<name>)`: the attribute lookup fails if the module does not bind `name`. */
  function ReturnWithCode(message: string, name: string): Outcome {
    if name in Attributes then Returned(Classification(message, Attributes[name]))
    else Raised(AttributeError(name))
  }

  /**
   * `analyze_nagios_results` as written: the CRITICAL branch looks up
   * `NAGIOS_CRITICAL_RETURN_CODE`, a name the constants module does not bind,
   * and the last two branches can only be reached when neither of the first
   * two tests holds, which never happens.
   */
  function AnalyzeNagiosAsWritten(fixable: seq<string>, priority: string): (r: Outcome)
    ensures |fixable| == 0 ==> r == Returned(Classification(NagiosOkMessage(priority), NagiosOkReturnCode))
    ensures |fixable| != 0 ==> r == Raised(AttributeError("NAGIOS_CRITICAL_RETURN_CODE"))
  {
    if |fixable| == 0 then
      ReturnWithCode(NagiosOkMessage(priority), "NAGIOS_OK_RETURN_CODE")
    else if |fixable| != 0 then
      ReturnWithCode(NagiosCriticalHeader(|fixable|, priority) + [Newline] + Join(fixable),
                     "NAGIOS_CRITICAL_RETURN_CODE")
    else
      // The WARNING branch names `cve_list_all_filtered`, which is not in scope here.
      Raised(NameError("cve_list_all_filtered"))
  }

  /** On every input with a fixable finding the as-written Nagios branch raises. */
  lemma NagiosCriticalRaisesAsWritten(fixable: seq<string>, priority: string)
    requires |fixable| != 0
    ensures AnalyzeNagiosAsWritten(fixable, priority).Raised?
    ensures AnalyzeNagiosAsWritten(fixable, priority).error.attribute !in Attributes
  {
  }

  /** No input makes the as-written Nagios branch return WARNING or UNKNOWN. */
  lemma NagiosWarningUnreachableAsWritten(fixable: seq<string>, priority: string)
    ensures AnalyzeNagiosAsWritten(fixable, priority).Returned? ==>
      AnalyzeNagiosAsWritten(fixable, priority).result.code == NagiosOkReturnCode
    ensures AnalyzeNagiosAsWritten(fixable, priority).Raised? ==>
      AnalyzeNagiosAsWritten(fixable, priority).error.AttributeError?
  {
  }

  /**
   * `analyze_nagios_results` with the CRITICAL code it evidently means (2):
   * OK exactly when nothing is fixable, CRITICAL with the count and the
   * fixable identifiers one per line otherwise.
   */
  function AnalyzeNagios(fixable: seq<string>, priority: string): (r: Classification)
    ensures r.code == NagiosOkReturnCode <==> |fixable| == 0
    ensures r.code == NagiosCriticalCreturnCode <==> |fixable| != 0
    ensures |fixable| == 0 ==> r.message == NagiosOkMessage(priority)
    ensures |fixable| != 0 ==>
      r.message == NagiosCriticalHeader(|fixable|, priority) + [Newline] + Join(fixable)
  {
    if |fixable| == 0 then Classification(NagiosOkMessage(priority), NagiosOkReturnCode)
    else Classification(NagiosCriticalHeader(|fixable|, priority) + [Newline] + Join(fixable),
                        Attributes["NAGIOS_CRITICAL_CRETURN_CODE"])
  }

  /** Where the as-written branch returns, the corrected one returns the same. */
  lemma NagiosCorrectionAgrees(fixable: seq<string>, priority: string)
    ensures AnalyzeNagiosAsWritten(fixable, priority).Returned? ==>
      AnalyzeNagiosAsWritten(fixable, priority).result == AnalyzeNagios(fixable, priority)
    ensures AnalyzeNagiosAsWritten(fixable, priority).Raised? ==>
      AnalyzeNagios(fixable, priority).code == NagiosCriticalCreturnCode
  {
  }

  /** The CRITICAL message carries the count of fixable findings right after its tag. */
  lemma NagiosMessageCountsFixable(fixable: seq<string>, priority: string)
    requires |fixable| != 0
    ensures var m := AnalyzeNagios(fixable, priority).message;
      var digits := NatToString(|fixable|);
      CriticalTag + digits <= m && ParseNat(m[|CriticalTag|..|CriticalTag| + |digits|]) == |fixable|
  {
    var digits := NatToString(|fixable|);
    var rest := NagiosCriticalWording(priority) + [Newline] + Join(fixable);
    var m := AnalyzeNagios(fixable, priority).message;
    assert m == CriticalTag + digits + rest;
    assert m[|CriticalTag|..|CriticalTag| + |digits|] == digits;
    ParseNatToString(|fixable|);
  }

  /** After the header line, the CRITICAL message lists exactly the fixable identifiers, one per line. */
  lemma NagiosMessageListsFixable(fixable: seq<string>, priority: string)
    requires |fixable| != 0
    requires forall i :: 0 <= i < |fixable| ==> NoNewline(fixable[i])
    ensures var m := AnalyzeNagios(fixable, priority).message;
      Split(m[|NagiosCriticalHeader(|fixable|, priority)| + 1..]) == fixable
  {
    var header := NagiosCriticalHeader(|fixable|, priority);
    var m := AnalyzeNagios(fixable, priority).message;
    assert m == header + [Newline] + Join(fixable);
    assert m[|header| + 1..] == Join(fixable);
    SplitJoin(fixable);
  }

  // ----- single-CVE lookup -----

  /**
   * `analyze_single_cve_results`: patch available when the CVE is fixable,
   * vulnerable when it is only among all findings, not affected otherwise.
   */
  function AnalyzeSingleCve(all: seq<string>, fixable: seq<string>, cve: string): (r: Classification)
    ensures r.code == PatchAvailableReturnCode <==> cve in fixable
    ensures r.code == SystemVulnerableReturnCode <==> cve !in fixable && cve in all
    ensures r.code == SuccessReturnCode <==> cve !in fixable && cve !in all
    ensures cve in fixable ==> r.message == cve + " patch available to install"
    ensures cve !in fixable && cve in all ==> r.message == cve + " patch not available"
    ensures cve !in fixable && cve !in all ==>
      r.message == cve + " patch applied or system not known to be affected"
  {
    if cve in fixable then
      Classification(cve + " patch available to install", PatchAvailableReturnCode)
    else if cve in all then
      Classification(cve + " patch not available", SystemVulnerableReturnCode)
    else
      Classification(cve + " patch applied or system not known to be affected", SuccessReturnCode)
  }

  /**
   * Exactly one of the three verdicts holds (their codes are distinct), and a
   * fixable CVE is reported as such even if the all-list misses it.
   */
  lemma SingleCveVerdictsExclusive(all: seq<string>, fixable: seq<string>, cve: string)
    ensures var c := AnalyzeSingleCve(all, fixable, cve).code;
      c in {PatchAvailableReturnCode, SystemVulnerableReturnCode, SuccessReturnCode}
    ensures |{PatchAvailableReturnCode, SystemVulnerableReturnCode, SuccessReturnCode}| == 3
    ensures cve in fixable && cve !in all ==>
      AnalyzeSingleCve(all, fixable, cve).code == PatchAvailableReturnCode
  {
  }

  // ----- list mode -----

  function ListSummary(packageCount: nat, found: nat): string {
    "Inspected " + NatToString(packageCount) + " packages. Found " + NatToString(found) + " CVEs"
  }

  /**
   * `analyze_cve_list_results`: the summary of the count of inspected packages
   * and of findings, followed directly (with no separator) by the findings
   * one per line; vulnerable exactly when there is a finding.
   */
  function AnalyzeCveList(cveList: seq<string>, packageCount: nat): (r: Classification)
    ensures ListSummary(packageCount, |cveList|) <= r.message
    ensures r.message[|ListSummary(packageCount, |cveList|)|..] == Join(cveList)
    ensures r.code == SystemVulnerableReturnCode <==> |cveList| != 0
    ensures r.code == SuccessReturnCode <==> |cveList| == 0
  {
    var resultsMsg := ListSummary(packageCount, |cveList|);
    if |cveList| != 0 then Classification(resultsMsg + Join(cveList), SystemVulnerableReturnCode)
    else Classification(resultsMsg, SuccessReturnCode)
  }

  /** What follows the summary gives back the reported findings when split into lines. */
  lemma ListMessageRecoversFindings(cveList: seq<string>, packageCount: nat)
    requires forall i :: 0 <= i < |cveList| ==> Extraction.IsFindingLine(cveList[i])
    ensures var m := AnalyzeCveList(cveList, packageCount).message;
      Extraction.ExtractedLines(m[|ListSummary(packageCount, |cveList|)|..]) == cveList
  {
    Extraction.ExtractionRoundTrip(cveList);
  }

  // ----- dispatch -----

  /**
   * `analyze_results`: Nagios mode first (fixable list only), then the
   * single-CVE lookup, then list mode on all findings, else list mode on the
   * fixable findings.
   */
  function AnalyzeResults(all: seq<string>, fixable: seq<string>, opt: Options, packageCount: nat)
    : (r: Classification)
    ensures opt.nagios ==> r == AnalyzeNagios(fixable, opt.priority)
    ensures !opt.nagios && CveRequested(opt) ==> r == AnalyzeSingleCve(all, fixable, opt.cve.value)
    ensures !opt.nagios && !CveRequested(opt) && opt.allCve ==> r == AnalyzeCveList(all, packageCount)
    ensures !opt.nagios && !CveRequested(opt) && !opt.allCve ==> r == AnalyzeCveList(fixable, packageCount)
    ensures opt.nagios ==> r.code in {NagiosOkReturnCode, NagiosCriticalCreturnCode}
    ensures !opt.nagios ==>
      r.code in {SuccessReturnCode, SystemVulnerableReturnCode, PatchAvailableReturnCode}
  {
    if opt.nagios then AnalyzeNagios(fixable, opt.priority)
    else if CveRequested(opt) then AnalyzeSingleCve(all, fixable, opt.cve.value)
    else if opt.allCve then AnalyzeCveList(all, packageCount)
    else AnalyzeCveList(fixable, packageCount)
  }

  /**
   * The Nagios help text's promises: 2 (CRITICAL) exactly when some finding
   * is patchable, 0 (OK) exactly when none is; WARNING (1) and UNKNOWN (3),
   * which it also describes, never occur.
   */
  lemma NagiosCodesMatchHelpText(all: seq<string>, fixable: seq<string>, opt: Options, packageCount: nat)
    requires opt.nagios
    ensures var c := AnalyzeResults(all, fixable, opt, packageCount).code;
      (c == NagiosCriticalCreturnCode <==> |fixable| > 0)
      && (c == NagiosOkReturnCode <==> fixable == [])
      && c != NagiosWarningReturnCode && c != NagiosUnknownCreturnCode
  {
  }

  /** A list of only unfixable findings is still OK in Nagios mode, where the help text promises WARNING. */
  lemma NagiosUnfixableIsOk(priority: string, packageCount: nat)
    ensures AnalyzeResults(["CVE-2020-0001"], [], Options(true, None, false, priority), packageCount).code
              == NagiosOkReturnCode
  {
  }

  /** Which list the classifier ignores in each mode. */
  lemma ModesIgnoreTheOtherList(all: seq<string>, all': seq<string>, fixable: seq<string>,
                                fixable': seq<string>, opt: Options, packageCount: nat)
    ensures opt.nagios || (!CveRequested(opt) && !opt.allCve) ==>
      AnalyzeResults(all, fixable, opt, packageCount) == AnalyzeResults(all', fixable, opt, packageCount)
    ensures !opt.nagios && !CveRequested(opt) && opt.allCve ==>
      AnalyzeResults(all, fixable, opt, packageCount) == AnalyzeResults(all, fixable', opt, packageCount)
  {
  }

  // ----- concrete runs -----

  /** Nagios mode on no finding and on one fixable finding. */
  lemma NagiosExamples()
    ensures AnalyzeNagios([], "high") == Classification(NagiosOkMessage("high"), 0)
    ensures AnalyzeNagios(["CVE-2020-0001"], "high")
              == Classification(NagiosCriticalHeader(1, "high") + "\nCVE-2020-0001", 2)
    ensures NatToString(1) == "1"
  {
  }

  /** List mode: the summary counts, and the first identifier follows the summary with no separator. */
  lemma ListModeExamples()
    ensures AnalyzeResults([], [], Options(false, None, false, "high"), 50)
              == Classification(ListSummary(50, 0), 0)
    ensures AnalyzeResults(["CVE-1970-0200", "CVE-1970-0300"], [], Options(false, None, true, "high"), 10)
              == Classification(ListSummary(10, 2) + "CVE-1970-0200\nCVE-1970-0300", 3)
    ensures NatToString(50) == "50" && NatToString(0) == "0"
  {
  }
}
