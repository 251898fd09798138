/**
 * The per-call issuance settings the API layer stores on the shared
 * instance before it hands over to the (unseen) certificate maker, and the
 * two rules by which MakeCert and MakeCertFromCSR overwrite them.
 */
module Issuance {
  import opened Outcomes

  /** What a caller may pass to MakeCert; absent options are `None`. */
  datatype CertOptions = CertOptions(
    ecdsa: bool,       // ECDSA instead of RSA
    client: bool,      // client-authentication certificate
    pkcs12: bool,      // also write a PKCS#12 bundle
    certFile: string,  // custom certificate path ("" = derived default)
    keyFile: string,   // custom key path
    p12File: string)   // custom PKCS#12 path

  /** The issuance fields of the shared instance, as the certificate maker reads them. */
  datatype IssueSettings = IssueSettings(
    ecdsa: bool,
    client: bool,
    pkcs12: bool,
    certFile: string,
    keyFile: string,
    p12File: string,
    csrPath: string)

  /** The zero value every field starts with. */
  const Unset: IssueSettings := IssueSettings(false, false, false, "", "", "", "")

  /**
   * MakeCert's update: given options overwrite exactly the six option fields
   * (empty strings included); without options nothing changes. The CSR path
   * is never touched.
   */
  function WithOptions(s: IssueSettings, options: Option<CertOptions>): (r: IssueSettings)
    ensures options.None? ==> r == s
    ensures options.Some? ==>
      && r.ecdsa == options.value.ecdsa
      && r.client == options.value.client
      && r.pkcs12 == options.value.pkcs12
      && r.certFile == options.value.certFile
      && r.keyFile == options.value.keyFile
      && r.p12File == options.value.p12File
    ensures r.csrPath == s.csrPath
  {
    match options
    case None => s
    case Some(o) =>
      s.(ecdsa := o.ecdsa, client := o.client, pkcs12 := o.pkcs12,
         certFile := o.certFile, keyFile := o.keyFile, p12File := o.p12File)
  }

  /**
   * MakeCertFromCSR's update: the CSR path is always set; the certificate
   * path only when a non-empty one is given; all other fields keep their values.
   */
  function WithCSR(s: IssueSettings, csrPath: string, certFile: string): (r: IssueSettings)
    ensures r.csrPath == csrPath
    ensures certFile != "" ==> r.certFile == certFile
    ensures certFile == "" ==> r.certFile == s.certFile
    ensures r.(csrPath := s.csrPath, certFile := s.certFile) == s
  {
    var withPath := s.(csrPath := csrPath);
    if certFile != "" then withPath.(certFile := certFile) else withPath
  }

  /** With options given, the previous option fields have no influence on the result. */
  lemma OptionsForgetPrevious(s1: IssueSettings, s2: IssueSettings, o: CertOptions)
    requires s1.csrPath == s2.csrPath
    ensures WithOptions(s1, Some(o)) == WithOptions(s2, Some(o))
  {
  }

  /**
   * A CSR issuance with an empty certificate path reuses the path an earlier
   * MakeCert stored, together with that call's key-type and usage flags.
   */
  lemma CSRReusesEarlierOptions(s: IssueSettings, o: CertOptions, csrPath: string)
    ensures var r := WithCSR(WithOptions(s, Some(o)), csrPath, "");
      r.certFile == o.certFile && r.ecdsa == o.ecdsa && r.client == o.client
  {
  }
}
