/** One update round of the manager: resolve the public IP, and when it
    changed, remember the previous one and push the change to every account's
    enabled resources, logging each kind's outcome and carrying on past
    failures. */
module Driver {
  import opened Wrappers
  import opened Strings
  import opened Whitelist
  import opened Provider
  import opened Aliyun
  import opened AliyunClient
  import Ip
  import Config

  /** A logged outcome: the account, the resource kind and its error, if any. */
  datatype Report = Report(account: string, kind: Kind, err: Option<UpdateError>)

  const DefaultAccountLabel := "account"

  /** The configurations the clients are built from: one per account, or the
      legacy single account when none is listed. */
  function ClientConfigs(cfg: Config.Config): (r: seq<Config.Aliyun>)
    ensures |cfg.accounts| > 0 ==> |r| == |cfg.accounts| && forall i :: 0 <= i < |r| ==> r[i] == Config.GetAliyun(cfg.accounts[i])
    ensures |cfg.accounts| == 0 ==> r == [cfg.aliyun]
  {
    if |cfg.accounts| > 0 then seq(|cfg.accounts|, i requires 0 <= i < |cfg.accounts| => Config.GetAliyun(cfg.accounts[i]))
    else [cfg.aliyun]
  }

  /** The name the `i`th client is logged under. */
  function AccountLabel(accounts: seq<Config.Account>, i: nat): string {
    if |accounts| > 0 && i < |accounts| then accounts[i].name else DefaultAccountLabel
  }

  /** Every client is logged under the name of the account it was built
      from, and the single legacy client under the default name. */
  lemma LabelsMatchClients(cfg: Config.Config)
    ensures forall i :: 0 <= i < |ClientConfigs(cfg)| ==>
              AccountLabel(cfg.accounts, i) == if |cfg.accounts| > 0 then cfg.accounts[i].name else DefaultAccountLabel
  {
  }

  function Enabled(cfg: Config.Aliyun, kind: Kind): bool {
    match kind
    case Ecs => cfg.ecs.enabled
    case Rds => cfg.rds.enabled
    case Redis => cfg.redis.enabled
    case Clb => cfg.clb.enabled
  }

  const AllKinds: seq<Kind> := [Ecs, Rds, Redis, Clb]

  function IfEnabled(cfg: Config.Aliyun, kind: Kind): seq<Kind> {
    if Enabled(cfg, kind) then [kind] else []
  }

  /** The kinds an account updates, in the fixed order ECS, RDS, Redis, CLB. */
  function EnabledKinds(cfg: Config.Aliyun): (r: seq<Kind>)
    ensures forall k :: k in r <==> Enabled(cfg, k)
    ensures forall i, j :: 0 <= i < j < |r| ==> Rank(r[i]) < Rank(r[j])
  {
    (if cfg.ecs.enabled then [Ecs] else [])
    + (if cfg.rds.enabled then [Rds] else [])
    + (if cfg.redis.enabled then [Redis] else [])
    + (if cfg.clb.enabled then [Clb] else [])
  }

  function Rank(kind: Kind): nat {
    match kind
    case Ecs => 0
    case Rds => 1
    case Redis => 2
    case Clb => 3
  }

  /** The targets one kind's update goes through. */
  function KindTargets(cfg: Config.Aliyun, kind: Kind, oldIP: string, newIP: string): seq<Target> {
    match kind
    case Ecs => EcsTargets(cfg.ecs, oldIP, newIP)
    case Rds => InstanceTargets(Rds, cfg.rds)
    case Redis => InstanceTargets(Redis, cfg.redis)
    case Clb => AclTargets(cfg.clb)
  }

  /** How the update of one kind ends, from the provider state it starts in. */
  type KindRun = (Kind, Cloud) -> Outcome

  /** The update of one kind of an account from `oldIP` to `newIP`. */
  function KindUpdate(cfg: Config.Aliyun, oldIP: string, newIP: string): KindRun {
    (kind: Kind, c: Cloud) => Each(c, KindTargets(cfg, kind, oldIP, newIP), oldIP, newIP)
  }

  /** The update of each kind in turn; a failure is reported and the next
      kind is updated all the same. */
  function RunKinds(run: KindRun, c: Cloud, kinds: seq<Kind>, name: string): (r: (Cloud, seq<Report>))
    ensures |r.1| == |kinds|
    decreases |kinds|
  {
    if kinds == [] then (c, [])
    else
      var first := run(kinds[0], c);
      var rest := RunKinds(run, first.cloud, kinds[1..], name);
      (rest.0, [Report(name, kinds[0], first.err)] + rest.1)
  }

  /** Every kind gets its report, under the account's name and in order,
      whether or not an earlier kind failed. */
  lemma {:induction false} OneReportPerKind(run: KindRun, c: Cloud, kinds: seq<Kind>, name: string)
    ensures var reports := RunKinds(run, c, kinds, name).1;
            forall k :: 0 <= k < |kinds| ==> reports[k].kind == kinds[k] && reports[k].account == name
    decreases |kinds|
  {
    if kinds != [] {
      OneReportPerKind(run, run(kinds[0], c).cloud, kinds[1..], name);
    }
  }

  /** Updating one more kind after some others. */
  lemma {:induction false} RunKindsSnoc(run: KindRun, c: Cloud, kinds: seq<Kind>, kind: Kind, name: string)
    ensures var before := RunKinds(run, c, kinds, name);
            var last := run(kind, before.0);
            RunKinds(run, c, kinds + [kind], name) == (last.cloud, before.1 + [Report(name, kind, last.err)])
    decreases |kinds|
  {
    if kinds == [] {
      assert kinds + [kind] == [kind] && [kind][1..] == [];
      var last := run(kind, c);
      assert RunKinds(run, last.cloud, [], name) == (last.cloud, []);
      assert RunKinds(run, c, [kind], name) == (last.cloud, [Report(name, kind, last.err)] + []);
      assert [Report(name, kind, last.err)] + [] == [] + [Report(name, kind, last.err)];
    } else {
      var ks := kinds + [kind];
      assert ks[0] == kinds[0] && ks[1..] == kinds[1..] + [kind];
      var first := run(kinds[0], c);
      var r0 := Report(name, kinds[0], first.err);
      var before' := RunKinds(run, first.cloud, kinds[1..], name);
      var last := run(kind, before'.0);
      RunKindsSnoc(run, first.cloud, kinds[1..], kind, name);
      assert [r0] + (before'.1 + [Report(name, kind, last.err)]) == ([r0] + before'.1) + [Report(name, kind, last.err)];
    }
  }

  /** A disabled kind makes no call and succeeds. */
  ghost predicate SkipsDisabled(cfg: Config.Aliyun, run: KindRun) {
    forall kind: Kind, c: Cloud :: !Enabled(cfg, kind) ==> run(kind, c) == Outcome(c, None)
  }

  /** Each `Update*Whitelist` returns at once when its kind is disabled. */
  lemma KindUpdateSkipsDisabled(cfg: Config.Aliyun, oldIP: string, newIP: string)
    ensures SkipsDisabled(cfg, KindUpdate(cfg, oldIP, newIP))
  {
    forall kind: Kind, c: Cloud | !Enabled(cfg, kind)
      ensures KindUpdate(cfg, oldIP, newIP)(kind, c) == Outcome(c, None)
    {
      assert KindTargets(cfg, kind, oldIP, newIP) == [];
    }
  }

  /** One more kind, called or skipped according to whether it is enabled,
      leaves the provider as calling it would. */
  lemma SkipIfDisabled(cfg: Config.Aliyun, run: KindRun, c: Cloud, skipped: seq<Kind>, called: seq<Kind>, kind: Kind, name: string)
    requires SkipsDisabled(cfg, run)
    requires RunKinds(run, c, skipped, name).0 == RunKinds(run, c, called, name).0
    ensures RunKinds(run, c, skipped + (if Enabled(cfg, kind) then [kind] else []), name).0
              == RunKinds(run, c, called + [kind], name).0
  {
    RunKindsSnoc(run, c, called, kind, name);
    if Enabled(cfg, kind) {
      RunKindsSnoc(run, c, skipped, kind, name);
    } else {
      assert skipped + [] == skipped;
    }
  }

  /** The enabled kinds of `kinds`, in order. */
  function EnabledOf(cfg: Config.Aliyun, kinds: seq<Kind>): seq<Kind> {
    if kinds == [] then []
    else
      var last := kinds[|kinds| - 1];
      EnabledOf(cfg, kinds[..|kinds| - 1]) + (if Enabled(cfg, last) then [last] else [])
  }

  lemma {:induction false} SkippingDisabledOf(cfg: Config.Aliyun, run: KindRun, c: Cloud, kinds: seq<Kind>, name: string)
    requires SkipsDisabled(cfg, run)
    ensures RunKinds(run, c, EnabledOf(cfg, kinds), name).0 == RunKinds(run, c, kinds, name).0
    decreases |kinds|
  {
    if kinds != [] {
      var init := kinds[..|kinds| - 1];
      SkippingDisabledOf(cfg, run, c, init, name);
      SkipIfDisabled(cfg, run, c, EnabledOf(cfg, init), init, kinds[|kinds| - 1], name);
      assert init + [kinds[|kinds| - 1]] == kinds;
    }
  }

  /** The enabled kinds are those of the fixed order that are enabled. */
  lemma EnabledKindsFiltered(cfg: Config.Aliyun)
    ensures EnabledOf(cfg, AllKinds) == EnabledKinds(cfg)
  {
    assert AllKinds[..3] == [Ecs, Rds, Redis] && [Ecs, Rds, Redis][..2] == [Ecs, Rds];
    assert [Ecs, Rds][..1] == [Ecs] && [Ecs][..0] == [];
    var e0 := if cfg.ecs.enabled then [Ecs] else [];
    assert EnabledOf(cfg, [Ecs]) == e0;
    var e1 := e0 + if cfg.rds.enabled then [Rds] else [];
    assert EnabledOf(cfg, [Ecs, Rds]) == e1;
    var e2 := e1 + if cfg.redis.enabled then [Redis] else [];
    assert EnabledOf(cfg, [Ecs, Rds, Redis]) == e2;
  }

  /** Taking the kinds one at a time, each if it is enabled, gives the
      enabled kinds. */
  lemma EnabledKindsInTurn(cfg: Config.Aliyun)
    ensures [] + IfEnabled(cfg, Ecs) + IfEnabled(cfg, Rds) + IfEnabled(cfg, Redis) + IfEnabled(cfg, Clb) == EnabledKinds(cfg)
  {
  }

  /** Skipping the disabled kinds leaves the provider as calling them would:
      the check of `enabled` before each kind only spares its log line. */
  lemma SkippingDisabledKinds(cfg: Config.Aliyun, run: KindRun, c: Cloud, name: string)
    requires SkipsDisabled(cfg, run)
    ensures RunKinds(run, c, EnabledKinds(cfg), name).0 == RunKinds(run, c, AllKinds, name).0
  {
    SkippingDisabledOf(cfg, run, c, AllKinds, name);
    EnabledKindsFiltered(cfg);
  }

  // ---------------------------------------------------------------------
  // An account whose every kind reported success
  // ---------------------------------------------------------------------

  /** The targets of `kinds`, one kind after the other. */
  function Planned(cfg: Config.Aliyun, kinds: seq<Kind>, oldIP: string, newIP: string): seq<Target>
    decreases |kinds|
  {
    if kinds == [] then [] else KindTargets(cfg, kinds[0], oldIP, newIP) + Planned(cfg, kinds[1..], oldIP, newIP)
  }

  /** No report carries an error. */
  predicate Clean(reports: seq<Report>) {
    forall r :: r in reports ==> r.err.None?
  }

  /** When every kind reported success, the account's update is one run over
      all its targets that succeeded. */
  lemma {:induction false} CleanReportsMeanCleanRun(cfg: Config.Aliyun, c: Cloud, kinds: seq<Kind>, oldIP: string, newIP: string, name: string)
    requires Clean(RunKinds(KindUpdate(cfg, oldIP, newIP), c, kinds, name).1)
    ensures Each(c, Planned(cfg, kinds, oldIP, newIP), oldIP, newIP)
              == Outcome(RunKinds(KindUpdate(cfg, oldIP, newIP), c, kinds, name).0, None)
    decreases |kinds|
  {
    var run := KindUpdate(cfg, oldIP, newIP);
    if kinds != [] {
      var ts := KindTargets(cfg, kinds[0], oldIP, newIP);
      var first := run(kinds[0], c);
      assert first == Each(c, ts, oldIP, newIP);
      var rest := RunKinds(run, first.cloud, kinds[1..], name);
      assert RunKinds(run, c, kinds, name).1 == [Report(name, kinds[0], first.err)] + rest.1;
      assert Report(name, kinds[0], first.err) in RunKinds(run, c, kinds, name).1;
      CleanReportsMeanCleanRun(cfg, first.cloud, kinds[1..], oldIP, newIP, name);
      EachAppend(c, ts, Planned(cfg, kinds[1..], oldIP, newIP), oldIP, newIP);
    }
  }

  /** A kind's targets are among the account's. */
  lemma {:induction false} PlannedMember(cfg: Config.Aliyun, kinds: seq<Kind>, kind: Kind, t: Target, oldIP: string, newIP: string)
    requires kind in kinds && t in KindTargets(cfg, kind, oldIP, newIP)
    ensures t in Planned(cfg, kinds, oldIP, newIP)
    decreases |kinds|
  {
    if kinds[0] != kind {
      PlannedMember(cfg, kinds[1..], kind, t, oldIP, newIP);
    }
  }

  /** Only ECS revokes. */
  lemma {:induction false} NoRevokesOutsideEcs(cfg: Config.Aliyun, kinds: seq<Kind>, oldIP: string, newIP: string)
    requires Ecs !in kinds
    ensures forall t :: t in Planned(cfg, kinds, oldIP, newIP) ==> !t.RevokeTarget?
    decreases |kinds|
  {
    if kinds != [] {
      NoRevokesOutsideEcs(cfg, kinds[1..], oldIP, newIP);
    }
  }

  lemma {:induction false} PlannedAppend(cfg: Config.Aliyun, a: seq<Kind>, b: seq<Kind>, oldIP: string, newIP: string)
    ensures Planned(cfg, a + b, oldIP, newIP) == Planned(cfg, a, oldIP, newIP) + Planned(cfg, b, oldIP, newIP)
    decreases |a|
  {
    if a == [] {
      assert a + b == b;
    } else {
      assert (a + b)[0] == a[0] && (a + b)[1..] == a[1..] + b;
      PlannedAppend(cfg, a[1..], b, oldIP, newIP);
    }
  }

  /** The kinds after ECS that are enabled. */
  function LaterKinds(cfg: Config.Aliyun): (r: seq<Kind>)
    ensures Ecs !in r
  {
    IfEnabled(cfg, Rds) + IfEnabled(cfg, Redis) + IfEnabled(cfg, Clb)
  }

  lemma EcsLeads(cfg: Config.Aliyun)
    ensures EnabledKinds(cfg) == IfEnabled(cfg, Ecs) + LaterKinds(cfg)
  {
  }

  /** The ECS revokes of an account, which come before all its other targets. */
  function EcsRevokes(cfg: Config.Aliyun, oldIP: string): (r: seq<Target>)
    ensures forall k :: 0 <= k < |r| ==> r[k].RevokeTarget?
  {
    if cfg.ecs.enabled && oldIP != "" then Revokes(cfg.ecs.securityGroups) else []
  }

  /** The ECS authorizations, then the targets of the later kinds. */
  function AfterRevokes(cfg: Config.Aliyun, oldIP: string, newIP: string): seq<Target> {
    (if cfg.ecs.enabled && newIP != "" then Authorizes(cfg.ecs.securityGroups) else [])
    + Planned(cfg, LaterKinds(cfg), oldIP, newIP)
  }

  lemma NoRevokesAfterRevokes(cfg: Config.Aliyun, oldIP: string, newIP: string)
    ensures forall t :: t in AfterRevokes(cfg, oldIP, newIP) ==> !t.RevokeTarget?
  {
    NoRevokesOutsideEcs(cfg, LaterKinds(cfg), oldIP, newIP);
  }

  /** The account's targets: the ECS revokes first, then the rest. */
  lemma RevokesComeFirst(cfg: Config.Aliyun, oldIP: string, newIP: string)
    ensures Planned(cfg, EnabledKinds(cfg), oldIP, newIP) == EcsRevokes(cfg, oldIP) + AfterRevokes(cfg, oldIP, newIP)
  {
    var revokes := EcsRevokes(cfg, oldIP);
    var auths := if cfg.ecs.enabled && newIP != "" then Authorizes(cfg.ecs.securityGroups) else [];
    var rest := Planned(cfg, LaterKinds(cfg), oldIP, newIP);
    EcsLeads(cfg);
    PlannedAppend(cfg, IfEnabled(cfg, Ecs), LaterKinds(cfg), oldIP, newIP);
    assert Planned(cfg, IfEnabled(cfg, Ecs), oldIP, newIP) == revokes + auths by {
      if cfg.ecs.enabled {
        assert Planned(cfg, [Ecs], oldIP, newIP) == EcsTargets(cfg.ecs, oldIP, newIP) + [];
      }
    }
    assert (revokes + auths) + rest == revokes + (auths + rest);
  }

  /** Every target of an account's round other than a revoke holds in `c`. */
  ghost predicate RoundHolds(cfg: Config.Aliyun, c: Cloud, oldIP: string, newIP: string) {
    forall t :: t in Planned(cfg, EnabledKinds(cfg), oldIP, newIP) && !t.RevokeTarget? ==> Holds(c, t, oldIP, newIP)
  }

  /** A target of an enabled kind is a target of the account's round. */
  lemma TargetPlanned(cfg: Config.Aliyun, kind: Kind, t: Target, oldIP: string, newIP: string)
    requires Enabled(cfg, kind) && t in KindTargets(cfg, kind, oldIP, newIP)
    ensures t in Planned(cfg, EnabledKinds(cfg), oldIP, newIP)
  {
    PlannedMember(cfg, EnabledKinds(cfg), kind, t, oldIP, newIP);
  }

  lemma EcsReconciled(cfg: Config.Aliyun, c: Cloud, oldIP: string, newIP: string)
    requires RoundHolds(cfg, c, oldIP, newIP)
    ensures cfg.ecs.enabled && newIP != "" ==>
              forall sg :: sg in cfg.ecs.securityGroups ==> SecurityRule(newIP, sg) in RulesOf(c, sg.securityGroupId)
  {
    forall sg | cfg.ecs.enabled && newIP != "" && sg in cfg.ecs.securityGroups
      ensures SecurityRule(newIP, sg) in RulesOf(c, sg.securityGroupId)
    {
      var k :| 0 <= k < |cfg.ecs.securityGroups| && cfg.ecs.securityGroups[k] == sg;
      var ts := EcsTargets(cfg.ecs, oldIP, newIP);
      assert ts[|ts| - |cfg.ecs.securityGroups| + k] == AuthorizeTarget(sg);
      TargetPlanned(cfg, Ecs, AuthorizeTarget(sg), oldIP, newIP);
      assert Holds(c, AuthorizeTarget(sg), oldIP, newIP);
    }
  }

  lemma InstancesReconciled(cfg: Config.Aliyun, kind: Kind, c: Cloud, oldIP: string, newIP: string)
    requires kind == Rds || kind == Redis
    requires RoundHolds(cfg, c, oldIP, newIP)
    ensures var db := if kind == Rds then cfg.rds else cfg.redis;
            db.enabled ==>
              forall iw :: iw in db.instanceWhitelists ==>
                var found := FindGroup(GroupsOf(c, kind, iw.instanceId), iw.whitelistName);
                found.Some? && Reconciled(found.value, oldIP, newIP)
  {
    var db := if kind == Rds then cfg.rds else cfg.redis;
    assert KindTargets(cfg, kind, oldIP, newIP) == InstanceTargets(kind, db);
    forall iw | db.enabled && iw in db.instanceWhitelists
      ensures var found := FindGroup(GroupsOf(c, kind, iw.instanceId), iw.whitelistName);
              found.Some? && Reconciled(found.value, oldIP, newIP)
    {
      var k :| 0 <= k < |db.instanceWhitelists| && db.instanceWhitelists[k] == iw;
      assert InstanceTargets(kind, db)[k] == InstanceTarget(kind, iw);
      TargetPlanned(cfg, kind, InstanceTarget(kind, iw), oldIP, newIP);
      assert Holds(c, InstanceTarget(kind, iw), oldIP, newIP);
    }
  }

  lemma AclsReconciled(cfg: Config.Aliyun, c: Cloud, oldIP: string, newIP: string)
    requires RoundHolds(cfg, c, oldIP, newIP)
    ensures cfg.clb.enabled ==>
              forall lbw :: lbw in cfg.clb.loadBalancerWhitelists ==> Reconciled(AclList(AclOf(c, lbw.aclId)), oldIP, newIP)
  {
    forall lbw | cfg.clb.enabled && lbw in cfg.clb.loadBalancerWhitelists
      ensures Reconciled(AclList(AclOf(c, lbw.aclId)), oldIP, newIP)
    {
      var k :| 0 <= k < |cfg.clb.loadBalancerWhitelists| && cfg.clb.loadBalancerWhitelists[k] == lbw;
      assert AclTargets(cfg.clb)[k] == AclTarget(lbw);
      TargetPlanned(cfg, Clb, AclTarget(lbw), oldIP, newIP);
      assert Holds(c, AclTarget(lbw), oldIP, newIP);
    }
  }

  /** After an account round in which every kind reported success, every
      target of the round other than a revoke holds. */
  lemma CleanRoundHolds(cfg: Config.Aliyun, c: Cloud, oldIP: string, newIP: string, name: string)
    requires Comma !in newIP && Trimmed(newIP)
    requires Clean(RunKinds(KindUpdate(cfg, oldIP, newIP), c, EnabledKinds(cfg), name).1)
    ensures RoundHolds(cfg, RunKinds(KindUpdate(cfg, oldIP, newIP), c, EnabledKinds(cfg), name).0, oldIP, newIP)
  {
    var kinds := EnabledKinds(cfg);
    var c' := RunKinds(KindUpdate(cfg, oldIP, newIP), c, kinds, name).0;
    CleanReportsMeanCleanRun(cfg, c, kinds, oldIP, newIP, name);
    RevokesComeFirst(cfg, oldIP, newIP);
    NoRevokesAfterRevokes(cfg, oldIP, newIP);
    var revokes := EcsRevokes(cfg, oldIP);
    var others := AfterRevokes(cfg, oldIP, newIP);
    EachAppend(c, revokes, others, oldIP, newIP);
    var mid := Each(c, revokes, oldIP, newIP).cloud;
    assert Each(mid, others, oldIP, newIP) == Outcome(c', None);
    EachEstablishes(mid, others, oldIP, newIP);
    HoldsPastRevokes(c', revokes, others, oldIP, newIP);
  }

  lemma HoldsPastRevokes(c: Cloud, revokes: seq<Target>, others: seq<Target>, oldIP: string, newIP: string)
    requires forall k :: 0 <= k < |revokes| ==> revokes[k].RevokeTarget?
    requires forall k :: 0 <= k < |others| ==> Holds(c, others[k], oldIP, newIP)
    ensures forall t :: t in revokes + others && !t.RevokeTarget? ==> Holds(c, t, oldIP, newIP)
  {
    forall t | t in revokes + others && !t.RevokeTarget?
      ensures Holds(c, t, oldIP, newIP)
    {
      assert t !in revokes;
      var k :| 0 <= k < |others| && others[k] == t;
    }
  }

  /** Every enabled resource of an account is in step with the new IP: each
      security group has the rule for it, and each whitelist group and access
      control list holds it and not a different old IP. */
  predicate Settled(cfg: Config.Aliyun, c: Cloud, oldIP: string, newIP: string) {
    && (cfg.ecs.enabled && newIP != "" ==>
          forall sg :: sg in cfg.ecs.securityGroups ==> SecurityRule(newIP, sg) in RulesOf(c, sg.securityGroupId))
    && (cfg.rds.enabled ==>
          forall iw :: iw in cfg.rds.instanceWhitelists ==>
            var found := FindGroup(GroupsOf(c, Rds, iw.instanceId), iw.whitelistName);
            found.Some? && Reconciled(found.value, oldIP, newIP))
    && (cfg.redis.enabled ==>
          forall iw :: iw in cfg.redis.instanceWhitelists ==>
            var found := FindGroup(GroupsOf(c, Redis, iw.instanceId), iw.whitelistName);
            found.Some? && Reconciled(found.value, oldIP, newIP))
    && (cfg.clb.enabled ==>
          forall lbw :: lbw in cfg.clb.loadBalancerWhitelists ==> Reconciled(AclList(AclOf(c, lbw.aclId)), oldIP, newIP))
  }

  /** An account round in which every kind reported success leaves every
      security group with the rule for the new IP, and every whitelist group
      and access control list holding the new IP and not a different old one. */
  lemma AccountReconciled(cfg: Config.Aliyun, c: Cloud, oldIP: string, newIP: string, name: string)
    requires Comma !in newIP && Trimmed(newIP)
    requires Clean(RunKinds(KindUpdate(cfg, oldIP, newIP), c, EnabledKinds(cfg), name).1)
    ensures Settled(cfg, RunKinds(KindUpdate(cfg, oldIP, newIP), c, EnabledKinds(cfg), name).0, oldIP, newIP)
  {
    var kinds := EnabledKinds(cfg);
    var c' := RunKinds(KindUpdate(cfg, oldIP, newIP), c, kinds, name).0;
    CleanRoundHolds(cfg, c, oldIP, newIP, name);
    EcsReconciled(cfg, c', oldIP, newIP);
    InstancesReconciled(cfg, Rds, c', oldIP, newIP);
    InstancesReconciled(cfg, Redis, c', oldIP, newIP);
    AclsReconciled(cfg, c', oldIP, newIP);
  }

  /** The assumption on the new IP holds for every IP a round resolves: in a
      well-formed environment a round of an account in which every kind
      reported success leaves the account settled on the resolved IP. */
  lemma ResolvedRoundSettled(env: Ip.Env, cfg: Config.Config, acct: Config.Aliyun, c: Cloud, oldIP: string, name: string)
    requires Ip.EnvWellFormed(env)
    requires Ip.Resolve(env, [cfg.ipSource]).Success?
    requires var newIP := Ip.Resolve(env, [cfg.ipSource]).value;
             Clean(RunKinds(KindUpdate(acct, oldIP, newIP), c, EnabledKinds(acct), name).1)
    ensures var newIP := Ip.Resolve(env, [cfg.ipSource]).value;
            Settled(acct, RunKinds(KindUpdate(acct, oldIP, newIP), c, EnabledKinds(acct), name).0, oldIP, newIP)
  {
    Ip.ResolvedAddressPlain(env, [cfg.ipSource]);
    AccountReconciled(acct, c, oldIP, Ip.Resolve(env, [cfg.ipSource]).value, name);
  }

  /** With the clients built from `ClientConfigs`, every report of the `i`th
      client names the `i`th account, or the default name for the single
      legacy client. */
  lemma ReportsNameTheirAccount(cfg: Config.Config, configs: seq<Config.Aliyun>, before: seq<Cloud>,
                                reports: seq<seq<Report>>, oldIP: string, newIP: string)
    requires configs == ClientConfigs(cfg) && |before| == |configs| && |reports| == |configs|
    requires forall i :: 0 <= i < |configs| ==>
               reports[i] == RunKinds(KindUpdate(configs[i], oldIP, newIP), before[i], EnabledKinds(configs[i]), AccountLabel(cfg.accounts, i)).1
    ensures forall i, k :: 0 <= i < |reports| && 0 <= k < |reports[i]| ==>
              reports[i][k].account == if |cfg.accounts| > 0 then cfg.accounts[i].name else DefaultAccountLabel
  {
    forall i, k | 0 <= i < |reports| && 0 <= k < |reports[i]|
      ensures reports[i][k].account == if |cfg.accounts| > 0 then cfg.accounts[i].name else DefaultAccountLabel
    {
      var name := AccountLabel(cfg.accounts, i);
      OneReportPerKind(KindUpdate(configs[i], oldIP, newIP), before[i], EnabledKinds(configs[i]), name);
    }
  }

  /** The state an update round leaves: a changed IP moves the current one to
      last and takes its place; the same IP changes nothing. */
  function NextState(lastIP: string, currentIP: string, resolved: string): (r: (string, string))
    ensures r.1 == resolved
    ensures resolved != currentIP ==> r.0 == currentIP
    ensures resolved == currentIP ==> r == (lastIP, currentIP)
  {
    if resolved == currentIP then (lastIP, currentIP) else (currentIP, resolved)
  }

  /** A second round that resolves the same IP changes nothing. */
  lemma NextStateIdempotent(lastIP: string, currentIP: string, resolved: string)
    ensures var s := NextState(lastIP, currentIP, resolved);
            NextState(s.0, s.1, resolved) == s
  {
  }

  class State {
    var lastIP: string
    var currentIP: string

    /** The state at start-up: no IP known yet. */
    constructor ()
      ensures lastIP == "" && currentIP == ""
    {
      lastIP := "";
      currentIP := "";
    }

    /** `updateIP`. The error returned is only that of resolution; every
        account's outcomes are in `reports`, one list per client. */
    method UpdateIP(env: Ip.Env, cfg: Config.Config, clients: seq<Client>) returns (err: Option<Ip.IpError>, reports: seq<seq<Report>>)
      requires forall i, j :: 0 <= i < j < |clients| ==> clients[i] != clients[j]
      modifies this, clients
      ensures var resolved := Ip.Resolve(env, [cfg.ipSource]);
              && (resolved.Failure? ==> err == Some(resolved.error) && lastIP == old(lastIP) && currentIP == old(currentIP))
              && (resolved.Success? ==> err.None? && (lastIP, currentIP) == NextState(old(lastIP), old(currentIP), resolved.value))
              && (resolved.Failure? || resolved.value == old(currentIP) ==>
                    reports == [] && forall i :: 0 <= i < |clients| ==> clients[i].cloud == old(clients[i].cloud))
              && (resolved.Success? && resolved.value != old(currentIP) ==>
                    && |reports| == |clients|
                    && forall i :: 0 <= i < |clients| ==>
                         (clients[i].cloud, reports[i]) == RunKinds(KindUpdate(clients[i].config, old(currentIP), resolved.value), old(clients[i].cloud),
                                                                    EnabledKinds(clients[i].config), AccountLabel(cfg.accounts, i)))
      ensures var resolved := Ip.Resolve(env, [cfg.ipSource]);
              Ip.EnvWellFormed(env) && resolved.Success? && resolved.value != old(currentIP) ==>
                forall i :: 0 <= i < |clients| && Clean(reports[i]) ==>
                  Settled(clients[i].config, clients[i].cloud, old(currentIP), resolved.value)
    {
      reports := [];
      var resolved := Ip.GetPublicIP(env, [cfg.ipSource]);
      if resolved.Failure? {
        return Some(resolved.error), [];
      }
      if resolved.value == currentIP {
        return None, [];
      }
      lastIP := currentIP;
      currentIP := resolved.value;
      reports := UpdateAccounts(cfg.accounts, clients);
      forall i | 0 <= i < |clients| && Clean(reports[i]) && Ip.EnvWellFormed(env)
        ensures Settled(clients[i].config, clients[i].cloud, lastIP, currentIP)
      {
        ResolvedRoundSettled(env, cfg, clients[i].config, old(clients[i].cloud), lastIP, AccountLabel(cfg.accounts, i));
      }
      return None, reports;
    }

    /** Every client in turn, each logged under its account's name. */
    method UpdateAccounts(accounts: seq<Config.Account>, clients: seq<Client>) returns (reports: seq<seq<Report>>)
      requires forall i, j :: 0 <= i < j < |clients| ==> clients[i] != clients[j]
      modifies clients
      ensures |reports| == |clients|
      ensures forall i :: 0 <= i < |clients| ==>
                (clients[i].cloud, reports[i]) == RunKinds(KindUpdate(clients[i].config, lastIP, currentIP), old(clients[i].cloud),
                                                           EnabledKinds(clients[i].config), AccountLabel(accounts, i))
    {
      reports := [];
      var i := 0;
      while i < |clients|
        invariant 0 <= i <= |clients| && |reports| == i
        invariant forall j :: 0 <= j < i ==>
                    (clients[j].cloud, reports[j]) == RunKinds(KindUpdate(clients[j].config, lastIP, currentIP), old(clients[j].cloud),
                                                               EnabledKinds(clients[j].config), AccountLabel(accounts, j))
        invariant forall j :: i <= j < |clients| ==> clients[j].cloud == old(clients[j].cloud)
      {
        var name := AccountLabel(accounts, i);
        var logged := UpdateAccount(clients[i], name);
        reports := reports + [logged];
        forall j | 0 <= j < i
          ensures (clients[j].cloud, reports[j]) == RunKinds(KindUpdate(clients[j].config, lastIP, currentIP), old(clients[j].cloud),
                                                             EnabledKinds(clients[j].config), AccountLabel(accounts, j))
        {
          assert clients[j] != clients[i];
        }
        i := i + 1;
      }
    }

    /** The update of one kind of resource of an account. */
    method UpdateKind(client: Client, kind: Kind) returns (err: Option<UpdateError>)
      modifies client
      ensures Outcome(client.cloud, err) == KindUpdate(client.config, lastIP, currentIP)(kind, old(client.cloud))
    {
      ghost var c0 := client.cloud;
      assert KindUpdate(client.config, lastIP, currentIP)(kind, c0) == Each(c0, KindTargets(client.config, kind, lastIP, currentIP), lastIP, currentIP);
      match kind
      case Ecs => err := client.UpdateECSWhitelist(lastIP, currentIP);
      case Rds => err := client.UpdateRDSWhitelist(lastIP, currentIP);
      case Redis => err := client.UpdateRedisWhitelist(lastIP, currentIP);
      case Clb => err := client.UpdateCLBWhitelist(lastIP, currentIP);
    }

    /** The four kinds of one account, each only if enabled; a failure is
        logged and the next kind goes ahead. */
    method UpdateAccount(client: Client, name: string) returns (logged: seq<Report>)
      modifies client
      ensures (client.cloud, logged) == RunKinds(KindUpdate(client.config, lastIP, currentIP), old(client.cloud), EnabledKinds(client.config), name)
    {
      ghost var k0: seq<Kind> := [];
      logged := [];
      assert (client.cloud, logged) == RunKinds(KindUpdate(client.config, lastIP, currentIP), client.cloud, k0, name);
      ghost var k1, k2, k3, k4;
      logged, k1 := UpdateIfEnabled(client, Ecs, name, old(client.cloud), k0, logged);
      logged, k2 := UpdateIfEnabled(client, Rds, name, old(client.cloud), k1, logged);
      logged, k3 := UpdateIfEnabled(client, Redis, name, old(client.cloud), k2, logged);
      logged, k4 := UpdateIfEnabled(client, Clb, name, old(client.cloud), k3, logged);
      EnabledKindsInTurn(client.config);
    }

    /** One kind of an account, updated and logged only if it is enabled. */
    method UpdateIfEnabled(client: Client, kind: Kind, name: string, ghost c0: Cloud, ghost kinds: seq<Kind>, logged: seq<Report>)
      returns (logged': seq<Report>, ghost kinds': seq<Kind>)
      requires (client.cloud, logged) == RunKinds(KindUpdate(client.config, lastIP, currentIP), c0, kinds, name)
      modifies client
      ensures kinds' == kinds + IfEnabled(client.config, kind)
      ensures (client.cloud, logged') == RunKinds(KindUpdate(client.config, lastIP, currentIP), c0, kinds', name)
    {
      logged', kinds' := logged, kinds;
      if Enabled(client.config, kind) {
        var e := UpdateKind(client, kind);
        RunKindsSnoc(KindUpdate(client.config, lastIP, currentIP), c0, kinds, kind, name);
        logged' := logged + [Report(name, kind, e)];
        kinds' := kinds + [kind];
      } else {
        assert kinds + [] == kinds;
      }
    }
  }
}
