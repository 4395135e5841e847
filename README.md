# cvescan: finding extraction and result classification

cvescan scans an Ubuntu host or a package manifest against Ubuntu's OVAL
security definitions. It runs the external `oscap` engine, then an
`xsltproc | sed` pipeline that prints one CVE identifier per line. It does this
twice: once for all findings at or above a priority, once for the findings
that have a fix available. The two lists and the run options decide the
final message and the process exit code.

This project models the decision logic of `cvescan/__main__.py` and the exit
codes of `cvescan/constants.py`:

- `Extraction` (`extraction.dfy`): the text-mode `read()` of the pipeline's
  output, which turns `"\r\n"` and a lone `'\r'` into `'\n'`, the splitting
  on newlines and the `while "" in L: L.remove("")` loop. It is an imperative
  method with a loop invariant, proved equal to a filter function
  `NonBlank`. No empty entry survives, every non-empty line survives as often
  as it occurs and in its original order, and printing a list one per line
  (with `"\n"` or `"\r\n"` line ends) and extracting it gives the list back.
- `Classifier` (`classifier.dfy`): `analyze_results` and its three branches
  (Nagios, single-CVE lookup, list mode), as total functions from the two
  lists, the options and the package count to a message and an exit code.
  `AnalyzeResults` uses the corrected Nagios branch, `AnalyzeNagios`. The
  source's Nagios branch, modelled as `AnalyzeNagiosAsWritten`, raises on
  every non-empty fixable list (see "## Findings"), so it is not total.
  `ReturnWithCode` models the `const.<name>` lookup in a `return` statement
  for `AnalyzeNagiosAsWritten`. It gives the bound value, or an
  AttributeError for a name the module does not bind.
- `SelfTest` (`selftest.dfy`): the two self-test checks and the aggregation
  of `run_testmode`.
- `Constants` (`constants.dfy`): the general and the Nagios exit codes. The
  module's attribute namespace is modelled as a map from the names the
  source binds to their values, so that a lookup of a name it does not bind
  can fail as it does in Python.
- `Text` (`text.dfy`): the newline translation of a text-mode `read()`, and
  Python's `str.split('\n')` and `'\n'.join`. Splitting then joining gives
  the text back. Joining one or more newline-free pieces, then splitting,
  gives the pieces back. (For no pieces, the join is `""`, which splits
  into `[""]`.) It also holds the decimal rendering of a
  count, which can be read back exactly.
- `Wrappers` (`wrappers.dfy`): an `Option` type for `opt.cve`, which may be `None`.

Three points where the model follows the code rather than what one might
expect of a scanner like this:

- No property assumes that the fixable list is a subset of the all-list. The
  code does not enforce this; it depends on the external XSLT.
- Duplicates are not removed. Only empty lines are.
- `run_testmode` returns the literal `0` on success, not the named constant.
  Both are 0.

## Model

| member | source | states |
|---|---|---|
| `Text.ReadTextMode` | cvescan/__main__.py:137 | the text `read()` returns contains no `'\r'` and is no longer than what was printed |
| `Text.ReadTextModeKeepsPlainText` | cvescan/__main__.py:137 | printed text without `'\r'` is read unchanged |
| `Text.ReadTextModeExamples` | cvescan/__main__.py:149 | `"\r\n"` and a lone `'\r'` are each read as one `'\n'` |
| `Text.JoinKeepsNoCarriageReturn` | cvescan/__main__.py:280 | joining entries without `'\r'` produces none |
| `Text.Split` | cvescan/__main__.py:137 | `str.split('\n')` always yields at least one piece, and no piece contains a newline |
| `Text.JoinSplit` | cvescan/__main__.py:137 | joining the pieces of a split with `'\n'` gives back the original text |
| `Text.SplitJoin` | cvescan/__main__.py:280 | a `'\n'.join` of one or more newline-free entries splits back into exactly those entries |
| `Text.SplitConcat` | cvescan/__main__.py:137 | splitting `a + '\n' + b` gives the pieces of `a` followed by the pieces of `b` |
| `Text.SplitSingle` | cvescan/__main__.py:137 | a newline-free text splits into itself alone |
| `Text.NatToString` | cvescan/__main__.py:300 | the `%s`/`%d` rendering of a count is a non-empty string of decimal digits with no leading zero |
| `Text.ParseNatToString` | cvescan/__main__.py:278-280 | the printed count reads back as exactly the number that was printed |
| `Constants.GeneralCodesDistinct` | cvescan/constants.py:55-59 | SUCCESS, ERROR, CLI_ERROR, SYSTEM_VULNERABLE and PATCH_AVAILABLE are five distinct codes |
| `Constants.NagiosCodesFollowPluginApi` | cvescan/constants.py:61-66 | the Nagios codes are OK=0 < WARNING=1 < CRITICAL=2 < UNKNOWN=3, the plugin API's order |
| `Constants.CodeSpacesOverlap` | cvescan/constants.py:55-66 | success and Nagios OK are both 0, so the two code spaces overlap (3 is both vulnerable and UNKNOWN) |
| `Constants.CriticalAndUnknownNamesUnbound` | cvescan/constants.py:65-66 | the module binds `NAGIOS_CRITICAL_CRETURN_CODE`=2 and `NAGIOS_UNKNOWN_CRETURN_CODE`=3, and does not bind the `..._RETURN_CODE` spellings the classifier uses |
| `Extraction.NonBlank` | cvescan/__main__.py:139-140 | the kept lines contain no empty entry, are no more than the input and all come from the input |
| `Extraction.NonBlankAppend` | cvescan/__main__.py:139-140 | the filter distributes over concatenation, so kept lines keep their relative order |
| `Extraction.NonBlankKeepsCount` | cvescan/__main__.py:139-140 | every non-empty line is kept exactly as many times as it occurs |
| `Extraction.NonBlankOfNoBlank` | cvescan/__main__.py:139 | a list with no empty entry is left unchanged |
| `Extraction.NonBlankIdempotent` | cvescan/__main__.py:139-140 | filtering a second time changes nothing |
| `Extraction.RemovingBlankKeepsNonBlank` | cvescan/__main__.py:140 | deleting one empty entry leaves the set of kept lines, in order, unchanged |
| `Extraction.RemoveFirst` | cvescan/__main__.py:140 | `list.remove(x)` deletes the first occurrence of `x` and nothing else |
| `Extraction.StripBlankLines` | cvescan/__main__.py:139-140 | the loop ends (each pass shortens the list) with no empty entry, and its result is exactly the non-empty lines in order |
| `Extraction.RunXsltprocAll` | cvescan/__main__.py:132-142 | the all-list is the non-empty lines of the pipeline's printed text after text-mode reading, each entry non-empty and free of `'\n'` and `'\r'` |
| `Extraction.RunXsltprocFixable` | cvescan/__main__.py:144-154 | the fixable list is the non-empty lines of the pipeline's printed text after text-mode reading, each entry non-empty and free of `'\n'` and `'\r'` |
| `Extraction.ExtractedAreFindingLines` | cvescan/__main__.py:137-142 | every extracted entry is non-empty and contains no `'\n'` and no `'\r'` |
| `Extraction.NoCarriageReturnInPieces` | cvescan/__main__.py:137 | splitting text that has no `'\r'` yields no piece containing one |
| `Extraction.ExtractionRoundTrip` | cvescan/__main__.py:135-142 | identifiers printed one per line, with or without a final newline, are extracted back exactly |
| `Extraction.CrLfEndsLine` | cvescan/__main__.py:137-142 | a finding line ended by `"\r\n"` or by `'\n'` is extracted as that line alone, followed by what the rest of the text extracts to |
| `Classifier.AnalyzeNagiosAsWritten` | cvescan/__main__.py:272-288 | as written: OK with code 0 and the OK message when nothing is fixable; an AttributeError on `NAGIOS_CRITICAL_RETURN_CODE` otherwise |
| `Classifier.NagiosCriticalRaisesAsWritten` | cvescan/__main__.py:281 | as written, every input with a fixable finding raises, because the name looked up is not bound |
| `Classifier.NagiosWarningUnreachableAsWritten` | cvescan/__main__.py:283-288 | as written, no input returns WARNING or UNKNOWN, and no input reaches the NameError of the WARNING branch |
| `Classifier.AnalyzeNagios` | cvescan/__main__.py:272-281 | code 0 exactly when the fixable list is empty, with the "OK: no known <priority> or higher CVEs..." message; code 2 exactly when it is non-empty, with the CRITICAL header and the fixable identifiers joined by newlines |
| `Classifier.NagiosCorrectionAgrees` | cvescan/__main__.py:272-281 | where the as-written branch returns, the corrected one returns the same; where it raises, the corrected one returns CRITICAL |
| `Classifier.NagiosMessageCountsFixable` | cvescan/__main__.py:278-280 | the CRITICAL message starts with "CRITICAL: " and the count of fixable findings, which reads back exactly |
| `Classifier.NagiosMessageListsFixable` | cvescan/__main__.py:278-280 | after the header line, the CRITICAL message splits into exactly the fixable identifiers |
| `Classifier.AnalyzeSingleCve` | cvescan/__main__.py:290-297 | code 4 and "<cve> patch available to install" exactly when the CVE is fixable; code 3 and "<cve> patch not available" exactly when it is only in the all-list; code 0 and "<cve> patch applied or system not known to be affected" exactly when it is in neither |
| `Classifier.SingleCveVerdictsExclusive` | cvescan/__main__.py:290-297 | the code is one of three distinct codes, and the fixable test wins even for a CVE missing from the all-list |
| `Classifier.AnalyzeCveList` | cvescan/__main__.py:299-306 | the message starts with "Inspected <count> packages. Found <len> CVEs", followed with no separator by the identifiers joined by newlines; code 3 exactly when the list is non-empty, 0 exactly when it is empty |
| `Classifier.ListMessageRecoversFindings` | cvescan/__main__.py:302-303 | the text after the summary gives back exactly the reported identifiers when read, split into lines and stripped of empty lines |
| `Classifier.AnalyzeResults` | cvescan/__main__.py:260-270 | dispatch in fixed order, first match wins: Nagios, then a requested CVE, then list mode on the all-list, else list mode on the fixable list; codes in {0, 2} in Nagios mode and in {0, 3, 4} otherwise |
| `Classifier.NagiosCodesMatchHelpText` | cvescan/constants.py:26-33 | in Nagios mode, 2 exactly when some finding is patchable and 0 exactly when none is; 1 and 3 never occur |
| `Classifier.NagiosUnfixableIsOk` | cvescan/constants.py:29-31 | an unfixable finding alone gives OK (0), not the WARNING (1) the help text describes |
| `Classifier.ModesIgnoreTheOtherList` | cvescan/__main__.py:260-270 | Nagios mode and default list mode do not depend on the all-list; all-CVE list mode does not depend on the fixable list |
| `Classifier.NagiosExamples` | cvescan/__main__.py:272-281 | an empty fixable list gives OK/0; `["CVE-2020-0001"]` gives CRITICAL/2 with the count 1 and the identifier |
| `Classifier.ListModeExamples` | cvescan/__main__.py:299-306 | 50 packages and no finding give code 0 and the summary alone; two findings in all-CVE mode give code 3 and the summary glued to the first identifier |
| `SelfTest.TestFilterActiveCves` | cvescan/__main__.py:175-183 | passes exactly when the all-list is 0300 and 0400 in either order (the two exclusion tests are then implied), with the SUCCESS or FAILURE message |
| `SelfTest.TestIdentifyFixableCves` | cvescan/__main__.py:185-190 | passes exactly when the fixable list is the single identifier 0400, with the SUCCESS or FAILURE message |
| `SelfTest.RunTestmode` | cvescan/__main__.py:165-173 | the two check messages joined by one newline; code 0 exactly when both checks pass, code 1 (ERROR) exactly when one fails |
| `SelfTest.TestmodePassesExactly` | cvescan/__main__.py:165-190 | the self test passes exactly on all = 0300, 0400 in either order and fixable = 0400, and returns 0 or 1 only |
| `SelfTest.ReferenceOutputPasses` | cvescan/__main__.py:163-173 | the pipeline output expected for the bundled definitions, once extracted, passes the self test |

## Notes on the source

- The CRITICAL branch of `analyze_nagios_results` (cvescan/__main__.py:281)
  uses `const.NAGIOS_CRITICAL_RETURN_CODE`. cvescan/constants.py:65 binds
  `NAGIOS_CRITICAL_CRETURN_CODE`. See "## Findings".
- The last two branches of `analyze_nagios_results` (lines 283-288) are
  unreachable. The tests at lines 273 and 277 are complements. If they were
  reached, they would fail too: `cve_list_all_filtered` is not in scope, the
  UNKNOWN name is misspelled the same way, and `sys.args` does not exist.
  `AnalyzeNagiosAsWritten` keeps one branch for lines 283-288, the NameError
  of line 283. Reaching line 283 would raise before the UNKNOWN return at
  line 288 could run, so line 288 has no separate counterpart.
  `NagiosWarningUnreachableAsWritten` proves the branch is never taken.
- The Nagios help text (cvescan/constants.py:29-31) describes a WARNING state
  for unfixable findings. The code can never produce it
  (`NagiosUnfixableIsOk`). The model does not add that state.
- `analyze_cve_list_results` glues the summary to the first identifier with
  no separator (line 303). The model keeps this, as `AnalyzeCveList`'s
  contract and `ListModeExamples` state.

## Left out

- Argument parsing, logger set-up and the logging of options and system
  information: library wrappers and output formatting.
- Downloading, decompressing and copying files, and counting manifest lines:
  network and file I/O. The package count is a parameter.
- Running `oscap` and the `xsltproc | sed` pipeline: external processes. The
  pipeline's printed text is a parameter of the extraction methods. It is
  taken as already-decoded characters. The byte-to-character decoding of
  `read()` is not modelled, but its newline translation is (`Text.ReadTextMode`).
- `main`: environment checks, `chdir`, and turning exceptions into
  `sys.exit` codes. This is process plumbing.
- `None` lists: the extraction always returns a list, so the `== None` tests
  of the classifier become emptiness tests. The `TypeError` that `len(None)`
  would raise in list mode is therefore not modelled.
- `SysInfo` and `Options` are not part of this model. Their attributes
  `nagios`, `cve`, `all_cve` and `priority` are plain inputs.
- `run_testmode`'s check for the test OVAL file and its scan (lines 157-163):
  file I/O and external processes. `RunTestmode` starts from the two
  extracted lists.
- `Extraction.RemoveFirst`: requires the value to be present. Its only caller
  guarantees this, so the `ValueError` that `list.remove` would raise is not
  modelled.

## Findings

| source | as written | input that shows it | evidently intended | confidence | as-written member | corrected member |
|---|---|---|---|---|---|---|
| cvescan/__main__.py:281 | returns `const.NAGIOS_CRITICAL_RETURN_CODE`, but cvescan/constants.py:65 binds `NAGIOS_CRITICAL_CRETURN_CODE`, so the lookup raises AttributeError | Nagios mode with fixable list `["CVE-2020-0001"]` | return the CRITICAL code 2 with the CRITICAL message | not executed | `Classifier.AnalyzeNagiosAsWritten`, `Classifier.NagiosCriticalRaisesAsWritten` | `Classifier.AnalyzeNagios` (used by `Classifier.AnalyzeResults`) |
