/**
 * How the credential script's verdict relates to the ads client's gate: the
 * script removes the dashes of the login customer id before testing it, the
 * client tests the id as given.
 */
module CredentialAgreement {
  import opened Credentials
  import opened CredentialCheck
  import opened AdsMetrics

  /** The script's all-present test is stricter than the client's gate only through the dash stripping. */
  lemma ScriptCheckImpliesGate(c: CredentialSet)
    requires HasAllCredentials(c)
    ensures CredentialGate(c) != ""
  {
    assert c.loginCustomerId != "";
  }

  /**
   * A login customer id made only of dashes passes the client's gate, while the
   * script, which removes the dashes first, reports credentials missing.
   */
  lemma DashesOnlyIdPassesGate(c: CredentialSet)
    requires c.clientId != "" && c.clientSecret != "" && c.developerToken != "" && c.refreshToken != ""
    requires c.loginCustomerId != "" && forall i :: 0 <= i < |c.loginCustomerId| ==> c.loginCustomerId[i] == '-'
    ensures CredentialGate(c) != "" && !HasAllCredentials(c)
  {
    DashesOnlyIdIsMissing(c);
  }
}
