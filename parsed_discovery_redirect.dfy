/**
 * `ParsedDiscoveryRedirect`, whose source is not part of this model: its
 * contract is the one its unit tests fix.
 */
module ParsedDiscoveryRedirects {
  import opened Wrappers

  datatype ParsedDiscoveryRedirect = ParsedDiscoveryRedirect(
    selectedMCC: Option<string>,
    selectedMNC: Option<string>,
    encryptedMSISDN: Option<string>)
  {
    /** `hasMCCAndMNC`: both the MCC and the MNC are set. */
    predicate HasMCCAndMNC()
    {
      selectedMCC.Some? && selectedMNC.Some?
    }
  }

  /** The four cases the tests check: only both present gives true. */
  method TestHasMCCAndMNC(mcc: string, mnc: string)
    returns (neither: bool, onlyMcc: bool, onlyMnc: bool, both: bool)
    ensures !neither && !onlyMcc && !onlyMnc && both
  {
    neither := ParsedDiscoveryRedirect(None, None, None).HasMCCAndMNC();
    onlyMcc := ParsedDiscoveryRedirect(Some(mcc), None, None).HasMCCAndMNC();
    onlyMnc := ParsedDiscoveryRedirect(None, Some(mnc), None).HasMCCAndMNC();
    both := ParsedDiscoveryRedirect(Some(mcc), Some(mnc), None).HasMCCAndMNC();
  }
}
