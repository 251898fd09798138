# mkcert library API — a Dafny model

mkcert creates a local certificate authority (CA), issues leaf TLS
certificates signed by it, and registers the CA in three independent trust
stores: the operating system's ("system"), the NSS databases browsers use
("nss"), and the Java keystore ("java"). This project models the library
API layer in `mkcert.go`, which sits over an inner implementation struct.
The model covers:

- **Construction.** `New` fails when no CA root was discovered. `New` and
  `NewWithCARoot` fail when the root directory cannot be created. Otherwise
  they bind an instance to the root and load the stored CA.
- **Trust orchestration.** `Install` consults a store's trust check and
  installs into that store only under the source's exact mix of conditions:
  the store is enabled, the host probes found it, and the tool is present.
  `Install` sets `ignoreCheckFailure` when it tries the system store.
  `Uninstall` removes the CA in the fixed order NSS, Java, system. Both
  always report success.
- **Issuance gatekeeping.** `MakeCert` and `MakeCertFromCSR` refuse to issue
  without the CA key. Otherwise they overwrite the per-call issuance fields
  by the source's rules, then call the certificate maker.
- **Accessors.** `CARoot`, `CACert` and `CAFiles` read the fields;
  `CAFiles` gives the paths of the CA certificate and key under the root.

Everything the API delegates to is recorded, not executed. This covers the
CA loader and maker, the per-store check/install/uninstall mechanisms, and
the two certificate makers. Each call is appended to the ghost `trace`
field of the instance. The method contracts state the exact calls, their
order, and every field that changes. `TrustPlan` gives the calls of one
`Install` or `Uninstall` as pure functions and proves their properties.
These include the per-store attempt conditions, the order, no repeated
call, and the effect on the host's trust state.

Modules: `Outcomes` (option, result, errors), `Paths` (CA file names and
path joining), `Issuance` (options and the field-update rules), `Calls`
(stores and recorded calls), `TrustPlan` (install/uninstall plans and their
properties), `MkCertApi` (the `MkCert` class and the two constructors).

The host is a set of parameters:

- the store filter (`enabled`);
- the probe flags (`Probes`: hasNSS, hasCertutil, hasJava, hasKeytool);
- what each store's trust check reports (`trusted`, an argument of
  `Install`);
- for the lemmas about the host's trust state, whether each store's install
  or removal succeeds (`Host.accepts`);
- the discovered root, whether the directory can be created, and what the
  CA loader found (`LoadedCA`).

Facts about the code that shape the model:

- `Install` and `Uninstall` always return nil (mkcert.go:86, 103), whatever
  the individual stores report.
- The root directory is created with mode 0755 (mkcert.go:38, 50).
  Permissions are not modelled.
- Issuance is refused only for a missing CA key (mkcert.go:108, 127). Empty
  host lists and other request checks belong to the certificate maker, which
  is not part of this model.
- `CreateCA`'s doc comment (mkcert.go:150) says it creates a new CA "if it
  doesn't exist", but its body (mkcert.go:153) calls the CA maker
  unconditionally. The model follows the body.

## Model

| member | source | states |
|---|---|---|
| MkCertApi.New | mkcert.go:32-46 | No discovered root gives the "CA location not found" error, without trying to create a directory. A failed directory creation gives the "create CAROOT" error. Otherwise the result is a fresh instance bound to the discovered root, holding what the loader found, with all issuance fields unset and only the CA load recorded. |
| MkCertApi.NewWithCARoot | mkcert.go:49-58 | A failed directory creation gives the "create CAROOT" error. Otherwise the result is a fresh instance whose `CARoot()` is the given root and whose `CAFiles()` lie under it. |
| MkCertApi.MkCert.constructor | mkcert.go:42-43 | The instance is bound to the root. The key flag and certificate come from the loader, the issuance fields and `ignoreCheckFailure` hold their zero values, and the one recorded call is the CA load. |
| MkCertApi.MkCert.Install | mkcert.go:61-87 | Always returns success. The recorded calls are exactly `InstallPlan` for the store filter, probes and check answers. `ignoreCheckFailure` becomes true exactly when the system store is enabled and its check reports untrusted, and is otherwise unchanged. What the install operations report is not an input, so neither the calls nor the flag depend on whether an install succeeded. |
| MkCertApi.MkCert.InstallSystem | mkcert.go:62-67 | If the system store is disabled, nothing is recorded and the platform check is not consulted. Otherwise the check is recorded, then an install if the check reports untrusted, and only then is `ignoreCheckFailure` set. |
| MkCertApi.MkCert.InstallNSS | mkcert.go:69-75 | The NSS check is consulted only when NSS is enabled and detected. An NSS install follows only when that check reports untrusted and certutil is present. |
| MkCertApi.MkCert.InstallJava | mkcert.go:77-84 | The Java check is consulted only when Java is enabled and detected. A Java install follows only when that check reports untrusted and keytool is present. |
| MkCertApi.MkCert.Uninstall | mkcert.go:90-104 | Always returns success. The recorded calls are exactly `UninstallPlan`: NSS removal if enabled, hasNSS and hasCertutil; then Java removal if enabled, hasJava and hasKeytool; then system removal if enabled. No other field changes. |
| MkCertApi.MkCert.MakeCert | mkcert.go:107-123 | Without the CA key: the missing-key error, no recorded call, and every issuance field unchanged. With the key: success, the fields updated by `WithOptions`, and exactly one certificate-maker call, which sees the updated fields. |
| MkCertApi.MkCert.MakeCertFromCSR | mkcert.go:126-138 | Without the CA key: the missing-key error, and nothing changes. With the key: success, the fields updated by `WithCSR`, and exactly one CSR-maker call, which sees the updated fields. |
| MkCertApi.MkCert.CreateCA | mkcert.go:152-155 | Always returns success and records one CA-maker call. |
| MkCertApi.MkCert.CAFiles | mkcert.go:158-160 | Returns two different paths. Both begin with the CA root; the first ends with `rootCA.pem`, the second with `rootCA-key.pem`. |
| MkCertApi.MkCert.CARoot | mkcert.go:146-148 | Returns the root the instance was built with. The property is stated through `NewWithCARoot` and `New`. |
| MkCertApi.MkCert.CACert | mkcert.go:141-143 | Returns the certificate the loader found. The property is stated through `NewWithCARoot` and `New`. |
| Paths.Join | mkcert.go:159 | The path ends with the file name. Under a non-empty directory, it starts with the directory followed by one separator. |
| Paths.JoinInjective | mkcert.go:159 | Within one directory, equal joined paths mean equal file names, so the CA certificate and key paths never collide. |
| Issuance.WithOptions | mkcert.go:112-119 | Without options, all fields are unchanged. With options, exactly `ecdsa`, `client`, `pkcs12`, `certFile`, `keyFile` and `p12File` take the option values, empty strings included. The CSR path is never changed. |
| Issuance.WithCSR | mkcert.go:131-134 | The CSR path is always set. The certificate path is replaced only by a non-empty argument; an empty one keeps the previous value. No other field changes. |
| Issuance.OptionsForgetPrevious | mkcert.go:112-119 | With options given, the previous option-field values have no influence on the new ones. |
| Issuance.CSRReusesEarlierOptions | mkcert.go:112-134 | A CSR issuance with an empty certificate path writes to the path an earlier `MakeCert` set. It also carries that call's ECDSA and client flags. |
| TrustPlan.InstallAttemptedIff | mkcert.go:61-84 | Install calls a store's install operation if and only if that store is enabled, its tooling is present (nothing for the system store; hasNSS and hasCertutil; hasJava and hasKeytool), and its check reports untrusted. No other store's answers matter. |
| TrustPlan.CheckConsultedIff | mkcert.go:62-78 | Install consults a store's trust check if and only if the store is enabled and detected. The NSS and Java checks run even when certutil or keytool is missing. |
| TrustPlan.InstallNeverUninstalls | mkcert.go:61-87 | Install never removes trust from any store. |
| TrustPlan.TrustedStoreNotReinstalled | mkcert.go:62-84 | A store whose check already reports the CA as trusted gets no install call. |
| TrustPlan.InstallOrder | mkcert.go:61-84 | Install's calls are store calls visiting the system store, then NSS, then Java, never going back. |
| TrustPlan.InstallNoRepeats | mkcert.go:61-84 | No call occurs twice within one Install, so each store gets at most one check and one install. |
| TrustPlan.UninstallAttemptedIff | mkcert.go:90-101 | Uninstall removes from a store if and only if it is enabled and its tooling is present. It never consults a check or installs. An earlier store's outcome has no influence. |
| TrustPlan.UninstallOrder | mkcert.go:90-101 | Uninstall's removals go strictly in the order NSS, Java, system, each store at most once. |
| TrustPlan.InstallOutcome | mkcert.go:61-84 | After one Install, the stores trusting the CA are those that did before, plus the attempted stores whose install succeeded. |
| TrustPlan.InstallTwiceSameState | mkcert.go:61-84 | Against the same host, a second Install leaves the trust state exactly as the first one left it. |
| TrustPlan.UninstallOutcome | mkcert.go:90-101 | After one Uninstall, the stores trusting the CA are those that did before, minus the reachable enabled stores whose removal succeeded. A store that never trusted the CA stays untrusted. |
| TrustPlan.OnlyNSSWithoutNSSIsQuiet | mkcert.go:69-75 | With only NSS enabled and no NSS database detected, Install makes no store call at all. |

## Left out

- Key generation, certificate building and signing, SAN classification, CSR parsing and PKCS#12 bundling. The CA loader and maker and the two certificate makers are not part of this model; each is a recorded call. The issuance calls record the fields they would read.
- The platform trust mechanisms (OS trust APIs, certutil, keytool). Their check answers and their install/removal outcomes are the `Host` parameter. `InstallOutcome`, `InstallTwiceSameState` and `UninstallOutcome` rest on three assumptions about them:
  - a successful install makes a store trust the CA and a successful removal makes it stop (`TrustPlan.Run`);
  - each store's check reports exactly whether that store trusts the CA: `host.trusted` is both the check answers and the trust state the run starts from, and `InstallTwiceSameState` feeds the state after the first Install back in as the second Install's check answers;
  - one set, `host.accepts`, says both whether a store's install succeeds and whether its removal succeeds.
- The store filter (`storeEnabled`), default root discovery (`getCAROOT`) and the host probe flags. They read the environment and the host, so they are parameters.
- Directory creation. Its outcome is the `mkdirOk` parameter, and the permission bits are not modelled.
- Status messages. Whether an install reported success decides only a printed line, so the model records the call and ignores its answer.
- The wording of the error messages. Each error is one constructor of `Outcomes.Error`.
- The wrapper struct holding a reference to the inner implementation struct. It is one class here, so two wrappers sharing one inner struct is not modelled.
- Paths.Join: the separator is always `/` and there is no lexical clean-up (doubled separators, `.`, `..`). Two contracts hold only because of that. One is `MkCertApi.MkCert.CAFiles`'s `HasPrefix(paths.0, CAROOT)`: Go's cleaning turns a root of `./ca` into `ca/rootCA.pem`. The other is `Paths.JoinInjective` for arbitrary names: with cleaning, `a/..` and `b/..` join to the same path. For the two fixed CA file names, which contain no separators or dots as path elements, distinct paths still hold.
- MkCertApi.MkCert.CreateCA: the maker's body is not part of this model, so the contract does not say how a new CA changes the loaded key flag or certificate. The model leaves both unchanged.
- MkCertApi.MkCert.CARoot: no contract of its own. It is a field read, and its property is in `New` and `NewWithCARoot`.
- MkCertApi.MkCert.CACert: no contract of its own. It is a field read, and its property is in `New` and `NewWithCARoot`.
