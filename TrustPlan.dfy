/**
 * Which store calls Install and Uninstall make, in which order, and what
 * they do to the trust state of the host.
 */
module TrustPlan {
  import opened Calls

  /** The host probes, taken once at start-up. */
  datatype Probes = Probes(hasNSS: bool, hasCertutil: bool, hasJava: bool, hasKeytool: bool)

  /**
   * The answers the host gives: the stores whose check reports that the CA
   * is trusted, and the stores whose install or removal operation succeeds.
   */
  datatype Host = Host(trusted: set<Store>, accepts: set<Store>)

  /** Whether a store is present at all: the system store always is, NSS and Java need their probe. */
  predicate Detected(s: Store, p: Probes) {
    match s
    case System => true
    case NSS => p.hasNSS
    case Java => p.hasJava
  }

  /** Whether a store can be changed: present, and its command-line tool found. */
  predicate Reachable(s: Store, p: Probes) {
    match s
    case System => true
    case NSS => p.hasNSS && p.hasCertutil
    case Java => p.hasJava && p.hasKeytool
  }

  // Install, block by block.

  function SystemInstallSteps(enabled: set<Store>, trusted: set<Store>): seq<Call> {
    if System in enabled then
      [CheckTrust(System)] + (if System !in trusted then [InstallTrust(System)] else [])
    else []
  }

  function NSSInstallSteps(enabled: set<Store>, p: Probes, trusted: set<Store>): seq<Call> {
    if NSS in enabled && p.hasNSS then
      [CheckTrust(NSS)] + (if NSS !in trusted && p.hasCertutil then [InstallTrust(NSS)] else [])
    else []
  }

  function JavaInstallSteps(enabled: set<Store>, p: Probes, trusted: set<Store>): seq<Call> {
    if Java in enabled && p.hasJava then
      [CheckTrust(Java)] + (if Java !in trusted && p.hasKeytool then [InstallTrust(Java)] else [])
    else []
  }

  /** The store calls of one Install, given what each check reports. */
  function InstallPlan(enabled: set<Store>, p: Probes, trusted: set<Store>): seq<Call> {
    SystemInstallSteps(enabled, trusted) + NSSInstallSteps(enabled, p, trusted)
    + JavaInstallSteps(enabled, p, trusted)
  }

  /** The store calls of one Uninstall: NSS, then Java, then the system store. */
  function UninstallPlan(enabled: set<Store>, p: Probes): seq<Call> {
    (if NSS in enabled && p.hasNSS && p.hasCertutil then [UninstallTrust(NSS)] else [])
    + (if Java in enabled && p.hasJava && p.hasKeytool then [UninstallTrust(Java)] else [])
    + (if System in enabled then [UninstallTrust(System)] else [])
  }

  /** Install marks later check failures as ignorable exactly when it tried the system store. */
  predicate SetsIgnoreCheckFailure(enabled: set<Store>, trusted: set<Store>) {
    System in enabled && System !in trusted
  }

  /** The stores an Install call tries to change. */
  function InstallTargets(enabled: set<Store>, p: Probes, trusted: set<Store>): set<Store> {
    set s | s in enabled && Reachable(s, p) && s !in trusted
  }

  /** The stores an Uninstall call tries to change. */
  function UninstallTargets(enabled: set<Store>, p: Probes): set<Store> {
    set s | s in enabled && Reachable(s, p)
  }

  /** The position of each store in Install's order. */
  function InstallRank(s: Store): nat {
    match s
    case System => 0
    case NSS => 1
    case Java => 2
  }

  /** The position of each store in Uninstall's order. */
  function UninstallRank(s: Store): nat {
    match s
    case NSS => 0
    case Java => 1
    case System => 2
  }

  /** All calls are store calls, and each one's store comes no earlier in Install's order than the one before it. */
  predicate InInstallOrder(calls: seq<Call>) {
    && (forall i :: 0 <= i < |calls| ==> calls[i].IsStoreCall())
    && (forall i :: 0 <= i < |calls| - 1 ==> InstallRank(calls[i].store) <= InstallRank(calls[i + 1].store))
  }

  /** All calls are store calls, and each one's store comes strictly later in Uninstall's order than the one before it. */
  predicate InUninstallOrder(calls: seq<Call>) {
    && (forall i :: 0 <= i < |calls| ==> calls[i].IsStoreCall())
    && (forall i :: 0 <= i < |calls| - 1 ==> UninstallRank(calls[i].store) < UninstallRank(calls[i + 1].store))
  }

  /** No call occurs twice. */
  predicate NoRepeats(calls: seq<Call>) {
    forall i, j :: 0 <= i < j < |calls| ==> calls[i] != calls[j]
  }

  // Properties of the plans.

  /**
   * A store gets an install call exactly when it is enabled, its tool is
   * present and its check reports it untrusted; nothing about the other
   * stores matters.
   */
  lemma InstallAttemptedIff(enabled: set<Store>, p: Probes, trusted: set<Store>, s: Store)
    ensures InstallTrust(s) in InstallPlan(enabled, p, trusted)
        <==> s in enabled && Reachable(s, p) && s !in trusted
  {
  }

  /**
   * A store's trust check is consulted exactly when it is enabled and
   * detected; the NSS and Java checks run even when the tool is missing.
   */
  lemma CheckConsultedIff(enabled: set<Store>, p: Probes, trusted: set<Store>, s: Store)
    ensures CheckTrust(s) in InstallPlan(enabled, p, trusted) <==> s in enabled && Detected(s, p)
  {
  }

  /** Install never removes trust. */
  lemma InstallNeverUninstalls(enabled: set<Store>, p: Probes, trusted: set<Store>, s: Store)
    ensures UninstallTrust(s) !in InstallPlan(enabled, p, trusted)
  {
  }

  /**
   * A store gets a removal call exactly when it is enabled and reachable;
   * the outcome of earlier removals plays no part. Uninstall consults no
   * check and installs nothing.
   */
  lemma UninstallAttemptedIff(enabled: set<Store>, p: Probes, s: Store)
    ensures UninstallTrust(s) in UninstallPlan(enabled, p) <==> s in enabled && Reachable(s, p)
    ensures CheckTrust(s) !in UninstallPlan(enabled, p) && InstallTrust(s) !in UninstallPlan(enabled, p)
  {
  }

  /** Every call of a block is a store call on the given store. */
  predicate OnStore(block: seq<Call>, s: Store) {
    forall k :: 0 <= k < |block| ==> block[k].IsStoreCall() && block[k].store == s
  }

  lemma InstallBlocks(enabled: set<Store>, p: Probes, trusted: set<Store>)
    ensures OnStore(SystemInstallSteps(enabled, trusted), System)
    ensures OnStore(NSSInstallSteps(enabled, p, trusted), NSS)
    ensures OnStore(JavaInstallSteps(enabled, p, trusted), Java)
  {
  }

  /** Joining two ordered runs whose meeting point is ordered gives an ordered run. */
  lemma InstallOrderConcat(a: seq<Call>, b: seq<Call>)
    requires InInstallOrder(a) && InInstallOrder(b)
    requires a != [] && b != [] ==> InstallRank(a[|a| - 1].store) <= InstallRank(b[0].store)
    ensures InInstallOrder(a + b)
  {
    var ab := a + b;
    forall i | 0 <= i < |ab| ensures ab[i].IsStoreCall() {
      if i < |a| { assert ab[i] == a[i]; } else { assert ab[i] == b[i - |a|]; }
    }
    forall i | 0 <= i < |ab| - 1 ensures InstallRank(ab[i].store) <= InstallRank(ab[i + 1].store) {
      if i + 1 < |a| {
        assert ab[i] == a[i] && ab[i + 1] == a[i + 1];
      } else if i >= |a| {
        assert ab[i] == b[i - |a|] && ab[i + 1] == b[i + 1 - |a|];
      } else {
        assert ab[i] == a[|a| - 1] && ab[i + 1] == b[0];
      }
    }
  }

  /** A block on a single store is trivially in order. */
  lemma OnStoreInInstallOrder(block: seq<Call>, s: Store)
    requires OnStore(block, s)
    ensures InInstallOrder(block)
  {
  }

  /** Install visits the system store, then NSS, then Java. */
  lemma InstallOrder(enabled: set<Store>, p: Probes, trusted: set<Store>)
    ensures InInstallOrder(InstallPlan(enabled, p, trusted))
  {
    var a, b, c := SystemInstallSteps(enabled, trusted), NSSInstallSteps(enabled, p, trusted),
                   JavaInstallSteps(enabled, p, trusted);
    InstallBlocks(enabled, p, trusted);
    OnStoreInInstallOrder(a, System);
    OnStoreInInstallOrder(b, NSS);
    OnStoreInInstallOrder(c, Java);
    InstallOrderConcat(a, b);
    var ab: seq<Call> := a + b;
    if ab != [] && c != [] {
      assert InstallRank(ab[|ab| - 1].store) <= InstallRank(c[0].store) by {
        if b != [] {
          assert ab[|ab| - 1] == b[|b| - 1];
        } else {
          assert ab[|ab| - 1] == a[|a| - 1];
        }
      }
    }
    InstallOrderConcat(ab, c);
    assert InstallPlan(enabled, p, trusted) == ab + c;
  }

  /** Uninstall visits NSS, then Java, then the system store, each at most once. */
  lemma UninstallOrder(enabled: set<Store>, p: Probes)
    ensures InUninstallOrder(UninstallPlan(enabled, p))
  {
  }

  /** Within one Install no call is made twice, so no store gets two install calls. */
  lemma InstallNoRepeats(enabled: set<Store>, p: Probes, trusted: set<Store>)
    ensures NoRepeats(InstallPlan(enabled, p, trusted))
  {
    var a, b, c := SystemInstallSteps(enabled, trusted), NSSInstallSteps(enabled, p, trusted),
                   JavaInstallSteps(enabled, p, trusted);
    var plan := a + b + c;
    InstallBlocks(enabled, p, trusted);
    forall i, j | 0 <= i < j < |plan| ensures plan[i] != plan[j] {
      var bi := if i < |a| then 0 else if i < |a| + |b| then 1 else 2;
      var bj := if j < |a| then 0 else if j < |a| + |b| then 1 else 2;
      if bi == bj {
        // inside one block the check comes first and the install second
        assert plan[i].CheckTrust? && plan[j].InstallTrust?;
      } else {
        assert plan[i].store != plan[j].store;
      }
    }
  }

  // Effect on the host's trust state.

  /**
   * What one call does to the set of stores that trust the CA: a successful
   * install adds the store, a successful removal takes it out, other calls
   * change nothing.
   */
  function Effect(trusted: set<Store>, c: Call, accepts: set<Store>): set<Store> {
    match c
    case InstallTrust(s) => if s in accepts then trusted + {s} else trusted
    case UninstallTrust(s) => if s in accepts then trusted - {s} else trusted
    case _ => trusted
  }

  /** The trust state after a sequence of calls. */
  function Run(trusted: set<Store>, calls: seq<Call>, accepts: set<Store>): set<Store>
    decreases |calls|
  {
    if calls == [] then trusted else Run(Effect(trusted, calls[0], accepts), calls[1..], accepts)
  }

  lemma {:induction false} RunConcat(trusted: set<Store>, a: seq<Call>, b: seq<Call>, accepts: set<Store>)
    ensures Run(trusted, a + b, accepts) == Run(Run(trusted, a, accepts), b, accepts)
    decreases |a|
  {
    if a == [] {
      assert a + b == b;
    } else {
      assert (a + b)[1..] == a[1..] + b;
      RunConcat(Effect(trusted, a[0], accepts), a[1..], b, accepts);
    }
  }

  /** Running one store's block of Install: only a successful install call changes anything. */
  lemma RunInstallBlock(trusted: set<Store>, block: seq<Call>, s: Store, accepts: set<Store>)
    requires block == [] || block == [CheckTrust(s)] || block == [CheckTrust(s), InstallTrust(s)]
    ensures Run(trusted, block, accepts)
         == if InstallTrust(s) in block && s in accepts then trusted + {s} else trusted
  {
    if block != [] {
      assert Run(trusted, block, accepts) == Run(trusted, block[1..], accepts);
      if |block| == 2 {
        assert block[1..] == [InstallTrust(s)];
        assert block[1..][1..] == [];
      }
    }
  }

  /** Running one store's block of Uninstall: only a successful removal changes anything. */
  lemma RunUninstallBlock(trusted: set<Store>, block: seq<Call>, s: Store, accepts: set<Store>)
    requires block == [] || block == [UninstallTrust(s)]
    ensures Run(trusted, block, accepts)
         == if block != [] && s in accepts then trusted - {s} else trusted
  {
  }

  /** Adding the accepted targets one store at a time adds all of them. */
  lemma AddEachAccepted(t: set<Store>, targets: set<Store>, acc: set<Store>,
                        ta: set<Store>, tb: set<Store>, tc: set<Store>)
    requires ta == if System in targets && System in acc then t + {System} else t
    requires tb == if NSS in targets && NSS in acc then ta + {NSS} else ta
    requires tc == if Java in targets && Java in acc then tb + {Java} else tb
    ensures tc == t + targets * acc
  {
    forall s ensures s in tc <==> s in t + targets * acc {
      match s
      case System =>
      case NSS =>
      case Java =>
    }
  }

  /** Removing the accepted targets one store at a time removes all of them. */
  lemma RemoveEachAccepted(t: set<Store>, targets: set<Store>, acc: set<Store>,
                           ta: set<Store>, tb: set<Store>, tc: set<Store>)
    requires ta == if NSS in targets && NSS in acc then t - {NSS} else t
    requires tb == if Java in targets && Java in acc then ta - {Java} else ta
    requires tc == if System in targets && System in acc then tb - {System} else tb
    ensures tc == t - targets * acc
  {
    forall s ensures s in tc <==> s in t - targets * acc {
      match s
      case System =>
      case NSS =>
      case Java =>
    }
  }

  /** Install's block for one store. */
  function InstallSteps(s: Store, enabled: set<Store>, p: Probes, trusted: set<Store>): seq<Call> {
    match s
    case System => SystemInstallSteps(enabled, trusted)
    case NSS => NSSInstallSteps(enabled, p, trusted)
    case Java => JavaInstallSteps(enabled, p, trusted)
  }

  /** One store's block adds that store exactly when it is a target and its install succeeds. */
  lemma RunInstallSteps(s: Store, enabled: set<Store>, p: Probes, trusted: set<Store>,
                        before: set<Store>, accepts: set<Store>)
    ensures Run(before, InstallSteps(s, enabled, p, trusted), accepts)
         == if s in InstallTargets(enabled, p, trusted) && s in accepts then before + {s} else before
  {
    RunInstallBlock(before, InstallSteps(s, enabled, p, trusted), s, accepts);
  }

  /** One Install adds exactly the targets whose install succeeds and removes nothing. */
  lemma InstallOutcome(enabled: set<Store>, p: Probes, host: Host)
    ensures Run(host.trusted, InstallPlan(enabled, p, host.trusted), host.accepts)
         == host.trusted + (InstallTargets(enabled, p, host.trusted) * host.accepts)
  {
    var t, acc := host.trusted, host.accepts;
    var a, b, c := InstallSteps(System, enabled, p, t), InstallSteps(NSS, enabled, p, t),
                   InstallSteps(Java, enabled, p, t);
    assert InstallPlan(enabled, p, t) == (a + b) + c;
    RunConcat(t, a + b, c, acc);
    RunConcat(t, a, b, acc);
    var ta := Run(t, a, acc);
    var tb := Run(ta, b, acc);
    RunInstallSteps(System, enabled, p, t, t, acc);
    RunInstallSteps(NSS, enabled, p, t, ta, acc);
    RunInstallSteps(Java, enabled, p, t, tb, acc);
    AddEachAccepted(t, InstallTargets(enabled, p, t), acc, ta, tb, Run(tb, c, acc));
  }

  /**
   * A second Install against the same host leaves the trust state the first
   * one produced: the stores it tries again are exactly those whose install
   * failed before, and they fail again.
   */
  lemma InstallTwiceSameState(enabled: set<Store>, p: Probes, host: Host)
    ensures var t1 := Run(host.trusted, InstallPlan(enabled, p, host.trusted), host.accepts);
      Run(t1, InstallPlan(enabled, p, t1), host.accepts) == t1
  {
    var t1 := Run(host.trusted, InstallPlan(enabled, p, host.trusted), host.accepts);
    InstallOutcome(enabled, p, host);
    InstallOutcome(enabled, p, Host(t1, host.accepts));
    assert InstallTargets(enabled, p, t1) * host.accepts == {} by {
      forall s | s in InstallTargets(enabled, p, t1) ensures s !in host.accepts {
        assert s in InstallTargets(enabled, p, host.trusted);
      }
    }
  }

  /** A store that already reports the CA as trusted gets no install call. */
  lemma TrustedStoreNotReinstalled(enabled: set<Store>, p: Probes, trusted: set<Store>, s: Store)
    requires s in trusted
    ensures InstallTrust(s) !in InstallPlan(enabled, p, trusted)
  {
  }

  /**
   * One Uninstall takes out exactly the reachable enabled stores whose
   * removal succeeds; a store that did not trust the CA stays that way.
   */
  lemma UninstallOutcome(enabled: set<Store>, p: Probes, host: Host)
    ensures Run(host.trusted, UninstallPlan(enabled, p), host.accepts)
         == host.trusted - (UninstallTargets(enabled, p) * host.accepts)
  {
    var t, acc := host.trusted, host.accepts;
    var a: seq<Call> := if NSS in enabled && p.hasNSS && p.hasCertutil then [UninstallTrust(NSS)] else [];
    var b: seq<Call> := if Java in enabled && p.hasJava && p.hasKeytool then [UninstallTrust(Java)] else [];
    var c: seq<Call> := if System in enabled then [UninstallTrust(System)] else [];
    var targets := UninstallTargets(enabled, p);
    RunConcat(t, a + b, c, acc);
    RunConcat(t, a, b, acc);
    RunUninstallBlock(t, a, NSS, acc);
    var ta := Run(t, a, acc);
    RunUninstallBlock(ta, b, Java, acc);
    var tb := Run(ta, b, acc);
    RunUninstallBlock(tb, c, System, acc);
    RemoveEachAccepted(t, targets, acc, ta, tb, Run(tb, c, acc));
  }

  /** With only NSS enabled and no NSS database on the host, Install touches nothing. */
  lemma OnlyNSSWithoutNSSIsQuiet(p: Probes, trusted: set<Store>)
    requires !p.hasNSS
    ensures InstallPlan({NSS}, p, trusted) == []
  {
  }
}
