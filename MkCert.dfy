/**
 * The library API of mkcert: an instance bound to one CA root, which
 * installs and removes the CA's trust in the three stores and gates leaf
 * issuance on the presence of the CA key. Everything the API delegates to
 * (the CA loader, the trust-store mechanisms, the certificate makers) is
 * recorded as a call in `trace` rather than executed.
 */
module MkCertApi {
  import opened Outcomes
  import opened Paths
  import opened Issuance
  import opened Calls
  import opened TrustPlan

  /** An opaque identity for the parsed CA certificate. */
  type CertHandle = nat

  /** What the CA loader found under the root: the CA certificate, if any, and whether the key file was there. */
  datatype LoadedCA = LoadedCA(cert: Option<CertHandle>, keyPresent: bool)

  class MkCert {
    /** The CA root directory this instance is bound to. */
    const CAROOT: string
    var caKeyPresent: bool
    var caCert: Option<CertHandle>
    // per-call issuance fields, read by the certificate makers
    var ecdsa: bool
    var client: bool
    var pkcs12: bool
    var certFile: string
    var keyFile: string
    var p12File: string
    var csrPath: string
    /** Set once Install has tried the system store. */
    var ignoreCheckFailure: bool
    /** Every call made into the unseen implementation, oldest first. */
    ghost var trace: seq<Call>

    /** The issuance fields, as one value. */
    function Settings(): IssueSettings
      reads this
    {
      IssueSettings(ecdsa, client, pkcs12, certFile, keyFile, p12File, csrPath)
    }

    /** Binds a fresh instance to a root and loads whatever CA is stored there. */
    constructor (caRoot: string, loaded: LoadedCA)
      ensures CAROOT == caRoot
      ensures caKeyPresent == loaded.keyPresent && caCert == loaded.cert
      ensures Settings() == Unset && !ignoreCheckFailure
      ensures trace == [LoadCA]
    {
      CAROOT := caRoot;
      ecdsa, client, pkcs12 := false, false, false;
      certFile, keyFile, p12File, csrPath := "", "", "", "";
      ignoreCheckFailure := false;
      trace := [];
      caKeyPresent, caCert := loaded.keyPresent, loaded.cert;
      trace := trace + [LoadCA];
    }

    /**
     * Installs the CA in every enabled store that can take it and does not
     * trust it yet: the system store first, then NSS, then Java. `trusted`
     * holds the stores whose check reports the CA as trusted; what the
     * install operations report decides only status messages, so it is not
     * an input. Always succeeds.
     */
    method Install(enabled: set<Store>, probes: Probes, trusted: set<Store>) returns (err: Option<Error>)
      modifies this`ignoreCheckFailure, this`trace
      ensures err == None
      ensures trace == old(trace) + InstallPlan(enabled, probes, trusted)
      ensures ignoreCheckFailure == (old(ignoreCheckFailure) || SetsIgnoreCheckFailure(enabled, trusted))
    {
      InstallSystem(enabled, trusted);
      InstallNSS(enabled, probes, trusted);
      InstallJava(enabled, probes, trusted);
      AppendThree(old(trace), SystemInstallSteps(enabled, trusted),
                  NSSInstallSteps(enabled, probes, trusted), JavaInstallSteps(enabled, probes, trusted));
      err := None;
    }

    /** Install's system-store block: consult the platform check, install when untrusted. */
    method InstallSystem(enabled: set<Store>, trusted: set<Store>)
      modifies this`ignoreCheckFailure, this`trace
      ensures trace == old(trace) + SystemInstallSteps(enabled, trusted)
      ensures ignoreCheckFailure == (old(ignoreCheckFailure) || SetsIgnoreCheckFailure(enabled, trusted))
    {
      if System in enabled {
        trace := trace + [CheckTrust(System)];
        if System !in trusted {
          trace := trace + [InstallTrust(System)];
          // whether the install reported success decides only a status message
          ignoreCheckFailure := true;
        }
      }
    }

    /** Install's NSS block: consult the NSS check when NSS is present, install when untrusted and certutil is found. */
    method InstallNSS(enabled: set<Store>, probes: Probes, trusted: set<Store>)
      modifies this`trace
      ensures trace == old(trace) + NSSInstallSteps(enabled, probes, trusted)
    {
      if NSS in enabled && probes.hasNSS {
        trace := trace + [CheckTrust(NSS)];
        if NSS !in trusted {
          if probes.hasCertutil {
            trace := trace + [InstallTrust(NSS)];
          }
        }
      }
    }

    /** Install's Java block: consult the Java check when Java is present, install when untrusted and keytool is found. */
    method InstallJava(enabled: set<Store>, probes: Probes, trusted: set<Store>)
      modifies this`trace
      ensures trace == old(trace) + JavaInstallSteps(enabled, probes, trusted)
    {
      if Java in enabled && probes.hasJava {
        trace := trace + [CheckTrust(Java)];
        if Java !in trusted {
          if probes.hasKeytool {
            trace := trace + [InstallTrust(Java)];
          }
        }
      }
    }

    /**
     * Removes the CA from every enabled store whose tooling is present: NSS,
     * then Java, then the system store. Always succeeds.
     */
    method Uninstall(enabled: set<Store>, probes: Probes) returns (err: Option<Error>)
      modifies this`trace
      ensures err == None
      ensures trace == old(trace) + UninstallPlan(enabled, probes)
    {
      if NSS in enabled && probes.hasNSS && probes.hasCertutil {
        trace := trace + [UninstallTrust(NSS)];
      }

      if Java in enabled && probes.hasJava && probes.hasKeytool {
        trace := trace + [UninstallTrust(Java)];
      }

      if System in enabled {
        trace := trace + [UninstallTrust(System)];
      }

      err := None;
    }

    /**
     * Issues a leaf certificate for the host names. Without the CA key it
     * fails and changes nothing; otherwise it applies the options, if any,
     * and hands over to the certificate maker.
     */
    method MakeCert(hostnames: seq<string>, options: Option<CertOptions>) returns (err: Option<Error>)
      modifies this`ecdsa, this`client, this`pkcs12, this`certFile, this`keyFile, this`p12File, this`trace
      ensures !caKeyPresent ==> err == Some(MissingCAKey) && Settings() == old(Settings()) && trace == old(trace)
      ensures caKeyPresent ==> && err == None
                               && Settings() == WithOptions(old(Settings()), options)
                               && trace == old(trace) + [MakeLeaf(hostnames, Settings())]
    {
      if !caKeyPresent {
        return Some(MissingCAKey);
      }

      if options.Some? {
        var o := options.value;
        ecdsa := o.ecdsa;
        client := o.client;
        pkcs12 := o.pkcs12;
        certFile := o.certFile;
        keyFile := o.keyFile;
        p12File := o.p12File;
      }

      trace := trace + [MakeLeaf(hostnames, Settings())];
      err := None;
    }

    /**
     * Signs an external certificate signing request. Without the CA key it
     * fails and changes nothing; otherwise it records the CSR path, replaces
     * the certificate path only when one is given, and hands over to the
     * certificate maker.
     */
    method MakeCertFromCSR(csr: string, cert: string) returns (err: Option<Error>)
      modifies this`csrPath, this`certFile, this`trace
      ensures !caKeyPresent ==> err == Some(MissingCAKey) && Settings() == old(Settings()) && trace == old(trace)
      ensures caKeyPresent ==> && err == None
                               && Settings() == WithCSR(old(Settings()), csr, cert)
                               && trace == old(trace) + [MakeLeafFromCSR(Settings())]
    {
      if !caKeyPresent {
        return Some(MissingCAKey);
      }

      csrPath := csr;
      if cert != "" {
        certFile := cert;
      }

      trace := trace + [MakeLeafFromCSR(Settings())];
      err := None;
    }

    /** Asks the CA maker for a new CA under the root. Always succeeds. */
    method CreateCA() returns (err: Option<Error>)
      modifies this`trace
      ensures err == None
      ensures trace == old(trace) + [NewCA]
    {
      trace := trace + [NewCA];
      err := None;
    }

    /** The CA certificate the loader found, if any. */
    function CACert(): Option<CertHandle>
      reads this
    {
      caCert
    }

    /** The directory the CA files live in. */
    function CARoot(): string
    {
      CAROOT
    }

    /** The paths of the CA certificate and of the CA key, both under the root. */
    function CAFiles(): (paths: (string, string))
      ensures paths.0 != paths.1
      ensures HasPrefix(paths.0, CAROOT) && HasPrefix(paths.1, CAROOT)
      ensures HasSuffix(paths.0, RootName) && HasSuffix(paths.1, RootKeyName)
    {
      (Join(CAROOT, RootName), Join(CAROOT, RootKeyName))
    }
  }

  /**
   * Creates an instance on the discovered default root: fails when no root
   * was discovered, or when the directory cannot be created; otherwise loads
   * the stored CA.
   */
  method New(discovered: string, mkdirOk: bool, loaded: LoadedCA) returns (r: Result<MkCert>)
    ensures discovered == "" ==> r == Err(CARootNotFound)
    ensures discovered != "" && !mkdirOk ==> r == Err(CreateCARootFailed)
    ensures discovered != "" && mkdirOk ==> r.Ok? && fresh(r.value) && Bound(r.value, discovered, loaded)
  {
    if discovered == "" {
      return Err(CARootNotFound);
    }
    r := NewWithCARoot(discovered, mkdirOk, loaded);
  }

  /**
   * Creates an instance on a given root: fails when the directory cannot be
   * created; otherwise loads the stored CA.
   */
  method NewWithCARoot(caRoot: string, mkdirOk: bool, loaded: LoadedCA) returns (r: Result<MkCert>)
    ensures !mkdirOk ==> r == Err(CreateCARootFailed)
    ensures mkdirOk ==> r.Ok? && fresh(r.value) && Bound(r.value, caRoot, loaded)
  {
    if !mkdirOk {
      return Err(CreateCARootFailed);
    }
    var m := new MkCert(caRoot, loaded);
    r := Ok(m);
  }

  lemma AppendThree(t: seq<Call>, a: seq<Call>, b: seq<Call>, c: seq<Call>)
    ensures t + a + b + c == t + (a + b + c)
  {
  }

  /** A newly created instance: bound to the root, holding what the loader found, with all issuance fields unset. */
  ghost predicate Bound(m: MkCert, caRoot: string, loaded: LoadedCA)
    reads m
  {
    && m.CARoot() == caRoot
    && m.CAFiles() == (Join(caRoot, RootName), Join(caRoot, RootKeyName))
    && m.caKeyPresent == loaded.keyPresent && m.CACert() == loaded.cert
    && m.Settings() == Unset && !m.ignoreCheckFailure
    && m.trace == [LoadCA]
  }
}
