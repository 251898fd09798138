/** The trust stores and the calls the API layer makes into the unseen implementation. */
module Calls {
  import Issuance

  /** The three independently administered trust stores. */
  datatype Store = System | NSS | Java

  /**
   * One call into the unseen implementation. Store calls name their store;
   * issuance calls carry the settings the certificate maker reads at that moment.
   */
  datatype Call =
    | CheckTrust(store: Store)      // checkPlatform / checkNSS / checkJava
    | InstallTrust(store: Store)    // installPlatform / installNSS / installJava
    | UninstallTrust(store: Store)  // uninstallPlatform / uninstallNSS / uninstallJava
    | LoadCA                        // loadCA
    | NewCA                         // newCA
    | MakeLeaf(hostnames: seq<string>, settings: Issuance.IssueSettings)  // makeCert
    | MakeLeafFromCSR(settings: Issuance.IssueSettings)                   // makeCertFromCSR
  {
    predicate IsStoreCall() {
      CheckTrust? || InstallTrust? || UninstallTrust?
    }
  }
}
