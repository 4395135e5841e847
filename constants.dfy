/**
 * The exit codes of the scanner: the general codes and, for Nagios mode, the
 * codes of the Nagios plugin API (OK, WARNING, CRITICAL, UNKNOWN).
 * The two Nagios codes for CRITICAL and UNKNOWN keep the names the source
 * binds them under (`..._CRETURN_CODE`).
 */
module Constants {

  const SuccessReturnCode: int := 0
  const ErrorReturnCode: int := 1
  const CliErrorReturnCode: int := 2
  const SystemVulnerableReturnCode: int := 3
  const PatchAvailableReturnCode: int := 4

  const NagiosOkReturnCode: int := 0
  const NagiosWarningReturnCode: int := 1
  const NagiosCriticalCreturnCode: int := 2
  const NagiosUnknownCreturnCode: int := 3

  /** The return-code attributes of the constants module, under the names it binds. */
  const Attributes: map<string, int> := map[
    "SUCCESS_RETURN_CODE" := SuccessReturnCode,
    "ERROR_RETURN_CODE" := ErrorReturnCode,
    "CLI_ERROR_RETURN_CODE" := CliErrorReturnCode,
    "SYSTEM_VULNERABLE_RETURN_CODE" := SystemVulnerableReturnCode,
    "PATCH_AVAILABLE_RETURN_CODE" := PatchAvailableReturnCode,
    "NAGIOS_OK_RETURN_CODE" := NagiosOkReturnCode,
    "NAGIOS_WARNING_RETURN_CODE" := NagiosWarningReturnCode,
    "NAGIOS_CRITICAL_CRETURN_CODE" := NagiosCriticalCreturnCode,
    "NAGIOS_UNKNOWN_CRETURN_CODE" := NagiosUnknownCreturnCode
  ]

  /** The general codes tell every outcome apart. */
  lemma GeneralCodesDistinct()
    ensures |{SuccessReturnCode, ErrorReturnCode, CliErrorReturnCode,
              SystemVulnerableReturnCode, PatchAvailableReturnCode}| == 5
  {
  }

  /** The Nagios codes are 0 to 3 in the plugin API's order OK < WARNING < CRITICAL < UNKNOWN. */
  lemma NagiosCodesFollowPluginApi()
    ensures NagiosOkReturnCode == 0
    ensures NagiosOkReturnCode < NagiosWarningReturnCode < NagiosCriticalCreturnCode < NagiosUnknownCreturnCode
    ensures NagiosUnknownCreturnCode == 3
  {
  }

  /** The two code spaces overlap: success and Nagios OK are both 0. */
  lemma CodeSpacesOverlap()
    ensures SuccessReturnCode == NagiosOkReturnCode == 0
    ensures SystemVulnerableReturnCode == NagiosUnknownCreturnCode
  {
  }

  /** The names the classifier uses for CRITICAL and UNKNOWN are not bound by this module. */
  lemma CriticalAndUnknownNamesUnbound()
    ensures "NAGIOS_CRITICAL_RETURN_CODE" !in Attributes
    ensures "NAGIOS_UNKNOWN_RETURN_CODE" !in Attributes
    ensures Attributes["NAGIOS_CRITICAL_CRETURN_CODE"] == 2
    ensures Attributes["NAGIOS_UNKNOWN_CRETURN_CODE"] == 3
  {
  }
}
