/** The configuration record tree of the whitelist manager, its validator and
    the two projections the rest of the program reads (internal/config/config.go). */
module Config {
  import opened Wrappers

  /** One way of discovering the public IP (`IPSource`). */
  datatype IpSource = IpSource(
    sourceType: string,            // "http", "command" or "interface"
    url: string,                   // for "http"
    timeout: int,                  // seconds
    headers: map<string, string>,  // for "http"
    cmd: string,                   // for "command"
    interfaceName: string,         // for "interface"
    ipv6: bool)                    // for "interface"

  datatype SecurityGroup = SecurityGroup(securityGroupId: string, port: string, priority: int)

  datatype InstanceWhitelist = InstanceWhitelist(instanceId: string, whitelistName: string)

  datatype LoadBalancerWhitelist = LoadBalancerWhitelist(aclId: string)

  datatype Ecs = Ecs(enabled: bool, securityGroups: seq<SecurityGroup>)

  /** The `RDS` and `Redis` blocks, which have the same shape. */
  datatype Database = Database(enabled: bool, instanceWhitelists: seq<InstanceWhitelist>)

  datatype Clb = Clb(enabled: bool, loadBalancerWhitelists: seq<LoadBalancerWhitelist>)

  /** Credentials, region and resource blocks of one account, as a client uses them. */
  datatype Aliyun = Aliyun(
    accessKeyId: string, accessKeySecret: string, regionId: string,
    ecs: Ecs, rds: Database, redis: Database, clb: Clb)

  /** A named account of the multi-account form. */
  datatype Account = Account(
    name: string,
    accessKeyId: string, accessKeySecret: string, regionId: string,
    ecs: Ecs, rds: Database, redis: Database, clb: Clb)

  /** The whole configuration; `aliyun` is the legacy single-account block. */
  datatype Config = Config(interval: int, ipSource: IpSource, accounts: seq<Account>, aliyun: Aliyun)

  /** What one failed check reports about an account or the legacy block. */
  datatype Problem =
    | NameRequired
    | AccessKeyIdRequired
    | AccessKeySecretRequired
    | RegionIdRequired
    | NoSecurityGroups
    | SecurityGroupIdRequired(group: nat)
    | PortRequired(group: nat)
    | PriorityNotPositive(group: nat)
    | NoInstanceWhitelists(db: DbBlock)
    | InstanceIdRequired(db: DbBlock, whitelist: nat)
    | WhitelistNameRequired(db: DbBlock, whitelist: nat)
    | NoLoadBalancerWhitelists
    | AclIdRequired(whitelist: nat)

  datatype DbBlock = RdsBlock | RedisBlock

  /** The error `Validate` reports: the first check that failed. */
  datatype ConfigError =
    | IntervalNotPositive
    | UrlRequired
    | CmdRequired
    | InterfaceRequired
    | SourceTypeRequired
    | UnknownSourceType(sourceType: string)
    | AccountError(account: nat, problem: Problem)
    | LegacyError(problem: Problem)

  // ---------------------------------------------------------------------
  // Declarative validity: what a configuration that passes must satisfy.
  // ---------------------------------------------------------------------

  ghost predicate SourceValid(s: IpSource) {
    || (s.sourceType == "http" && s.url != "")
    || (s.sourceType == "command" && s.cmd != "")
    || (s.sourceType == "interface" && s.interfaceName != "")
  }

  ghost predicate SecurityGroupValid(sg: SecurityGroup) {
    sg.securityGroupId != "" && sg.port != "" && sg.priority > 0
  }

  ghost predicate InstanceWhitelistValid(iw: InstanceWhitelist) {
    iw.instanceId != "" && iw.whitelistName != ""
  }

  ghost predicate EcsValid(ecs: Ecs) {
    ecs.enabled ==>
      |ecs.securityGroups| > 0
      && forall j :: 0 <= j < |ecs.securityGroups| ==> SecurityGroupValid(ecs.securityGroups[j])
  }

  ghost predicate DatabaseValid(d: Database) {
    d.enabled ==>
      |d.instanceWhitelists| > 0
      && forall j :: 0 <= j < |d.instanceWhitelists| ==> InstanceWhitelistValid(d.instanceWhitelists[j])
  }

  ghost predicate ClbValid(clb: Clb) {
    clb.enabled ==>
      |clb.loadBalancerWhitelists| > 0
      && forall j :: 0 <= j < |clb.loadBalancerWhitelists| ==> clb.loadBalancerWhitelists[j].aclId != ""
  }

  /** Every enabled block has at least one target and every target of an
      enabled block has its identifying fields; disabled blocks are free. */
  ghost predicate ResourcesValid(ecs: Ecs, rds: Database, redis: Database, clb: Clb) {
    EcsValid(ecs) && DatabaseValid(rds) && DatabaseValid(redis) && ClbValid(clb)
  }

  ghost predicate AliyunValid(a: Aliyun) {
    a.accessKeyId != "" && a.accessKeySecret != "" && a.regionId != ""
    && ResourcesValid(a.ecs, a.rds, a.redis, a.clb)
  }

  ghost predicate AccountValid(a: Account) {
    a.name != "" && a.accessKeyId != "" && a.accessKeySecret != "" && a.regionId != ""
    && ResourcesValid(a.ecs, a.rds, a.redis, a.clb)
  }

  /** A configuration is valid when the interval is positive, the IP source is
      complete, and either every named account is valid or, with no accounts,
      the legacy block is. */
  ghost predicate ConfigValid(c: Config) {
    && c.interval > 0
    && SourceValid(c.ipSource)
    && (if |c.accounts| > 0 then forall i :: 0 <= i < |c.accounts| ==> AccountValid(c.accounts[i])
        else AliyunValid(c.aliyun))
  }

  // ---------------------------------------------------------------------
  // The validator: checks in the source's order, first failure reported.
  // ---------------------------------------------------------------------

  /** The first element of `xs`, from position `j` on, that `check` rejects,
      as `check` reports it: the shape of each `range` loop of `Validate`. */
  function FirstProblem<T, P>(xs: seq<T>, check: (nat, T) -> Option<P>, j: nat): (r: Option<P>)
    requires j <= |xs|
    ensures r.None? <==> forall k :: j <= k < |xs| ==> check(k, xs[k]).None?
    ensures r.Some? ==> exists k :: j <= k < |xs| && r == check(k, xs[k])
                                    && forall m :: j <= m < k ==> check(m, xs[m]).None?
    decreases |xs| - j
  {
    if j == |xs| then None
    else if check(j, xs[j]).Some? then check(j, xs[j])
    else FirstProblem(xs, check, j + 1)
  }

  function SourceProblem(s: IpSource): (r: Option<ConfigError>)
    ensures r.None? <==> SourceValid(s)
    ensures s.sourceType == "" ==> r == Some(SourceTypeRequired)
    ensures s.sourceType == "http" && s.url == "" ==> r == Some(UrlRequired)
    ensures s.sourceType == "command" && s.cmd == "" ==> r == Some(CmdRequired)
    ensures s.sourceType == "interface" && s.interfaceName == "" ==> r == Some(InterfaceRequired)
    ensures s.sourceType !in {"", "http", "command", "interface"} ==> r == Some(UnknownSourceType(s.sourceType))
  {
    match s.sourceType
    case "http" => if s.url == "" then Some(UrlRequired) else None
    case "command" => if s.cmd == "" then Some(CmdRequired) else None
    case "interface" => if s.interfaceName == "" then Some(InterfaceRequired) else None
    case "" => Some(SourceTypeRequired)
    case _ => Some(UnknownSourceType(s.sourceType))
  }

  /** The first empty credential field, in the order key id, secret, region. */
  function CredentialsProblem(accessKeyId: string, accessKeySecret: string, regionId: string): (r: Option<Problem>)
    ensures r.None? <==> accessKeyId != "" && accessKeySecret != "" && regionId != ""
    ensures accessKeyId == "" ==> r == Some(AccessKeyIdRequired)
    ensures accessKeyId != "" && accessKeySecret == "" ==> r == Some(AccessKeySecretRequired)
    ensures accessKeyId != "" && accessKeySecret != "" && regionId == "" ==> r == Some(RegionIdRequired)
  {
    if accessKeyId == "" then Some(AccessKeyIdRequired)
    else if accessKeySecret == "" then Some(AccessKeySecretRequired)
    else if regionId == "" then Some(RegionIdRequired)
    else None
  }

  /** The first failing check of the `j`th security group: id, port, priority. */
  function SecurityGroupProblem(j: nat, sg: SecurityGroup): (r: Option<Problem>)
    ensures r.None? <==> SecurityGroupValid(sg)
    ensures sg.securityGroupId == "" ==> r == Some(SecurityGroupIdRequired(j))
    ensures sg.securityGroupId != "" && sg.port == "" ==> r == Some(PortRequired(j))
    ensures sg.securityGroupId != "" && sg.port != "" && sg.priority <= 0 ==> r == Some(PriorityNotPositive(j))
  {
    if sg.securityGroupId == "" then Some(SecurityGroupIdRequired(j))
    else if sg.port == "" then Some(PortRequired(j))
    else if sg.priority <= 0 then Some(PriorityNotPositive(j))
    else None
  }

  /** The first failing check of the `j`th instance whitelist: instance, then name. */
  function InstanceWhitelistProblem(db: DbBlock, j: nat, iw: InstanceWhitelist): (r: Option<Problem>)
    ensures r.None? <==> InstanceWhitelistValid(iw)
    ensures iw.instanceId == "" ==> r == Some(InstanceIdRequired(db, j))
    ensures iw.instanceId != "" && iw.whitelistName == "" ==> r == Some(WhitelistNameRequired(db, j))
  {
    if iw.instanceId == "" then Some(InstanceIdRequired(db, j))
    else if iw.whitelistName == "" then Some(WhitelistNameRequired(db, j))
    else None
  }

  function LoadBalancerProblem(j: nat, lbw: LoadBalancerWhitelist): Option<Problem> {
    if lbw.aclId == "" then Some(AclIdRequired(j)) else None
  }

  /** An enabled ECS block with no group is reported as such; otherwise the
      first group that fails its checks is. */
  function EcsProblem(ecs: Ecs): (r: Option<Problem>)
    ensures r.None? <==> EcsValid(ecs)
    ensures ecs.enabled && |ecs.securityGroups| == 0 ==> r == Some(NoSecurityGroups)
    ensures ecs.enabled && |ecs.securityGroups| > 0 && r.Some? ==>
              exists j :: && 0 <= j < |ecs.securityGroups| && r == SecurityGroupProblem(j, ecs.securityGroups[j])
                          && forall m :: 0 <= m < j ==> SecurityGroupValid(ecs.securityGroups[m])
  {
    if !ecs.enabled then None
    else if |ecs.securityGroups| == 0 then Some(NoSecurityGroups)
    else FirstProblem(ecs.securityGroups, SecurityGroupProblem, 0)
  }

  /** The RDS or Redis block: no whitelist at all, or the first failing one. */
  function DatabaseProblem(db: DbBlock, d: Database): (r: Option<Problem>)
    ensures r.None? <==> DatabaseValid(d)
    ensures d.enabled && |d.instanceWhitelists| == 0 ==> r == Some(NoInstanceWhitelists(db))
    ensures d.enabled && |d.instanceWhitelists| > 0 && r.Some? ==>
              exists j :: && 0 <= j < |d.instanceWhitelists| && r == InstanceWhitelistProblem(db, j, d.instanceWhitelists[j])
                          && forall m :: 0 <= m < j ==> InstanceWhitelistValid(d.instanceWhitelists[m])
  {
    if !d.enabled then None
    else if |d.instanceWhitelists| == 0 then Some(NoInstanceWhitelists(db))
    else FirstProblem(d.instanceWhitelists, (j: nat, iw: InstanceWhitelist) => InstanceWhitelistProblem(db, j, iw), 0)
  }

  /** The CLB block: no access control list at all, or the first without an id. */
  function ClbProblem(clb: Clb): (r: Option<Problem>)
    ensures r.None? <==> ClbValid(clb)
    ensures clb.enabled && |clb.loadBalancerWhitelists| == 0 ==> r == Some(NoLoadBalancerWhitelists)
    ensures clb.enabled && |clb.loadBalancerWhitelists| > 0 && r.Some? ==>
              exists j :: && 0 <= j < |clb.loadBalancerWhitelists| && r == Some(AclIdRequired(j))
                          && clb.loadBalancerWhitelists[j].aclId == ""
                          && forall m :: 0 <= m < j ==> clb.loadBalancerWhitelists[m].aclId != ""
  {
    if !clb.enabled then None
    else if |clb.loadBalancerWhitelists| == 0 then Some(NoLoadBalancerWhitelists)
    else FirstProblem(clb.loadBalancerWhitelists, LoadBalancerProblem, 0)
  }

  /** The four resource blocks, checked ECS, RDS, Redis, CLB. */
  function ResourcesProblem(ecs: Ecs, rds: Database, redis: Database, clb: Clb): (r: Option<Problem>)
    ensures r.None? <==> ResourcesValid(ecs, rds, redis, clb)
    ensures !EcsValid(ecs) ==> r == EcsProblem(ecs)
    ensures EcsValid(ecs) && !DatabaseValid(rds) ==> r == DatabaseProblem(RdsBlock, rds)
    ensures EcsValid(ecs) && DatabaseValid(rds) && !DatabaseValid(redis) ==> r == DatabaseProblem(RedisBlock, redis)
    ensures EcsValid(ecs) && DatabaseValid(rds) && DatabaseValid(redis) ==> r == ClbProblem(clb)
  {
    if EcsProblem(ecs).Some? then EcsProblem(ecs)
    else if DatabaseProblem(RdsBlock, rds).Some? then DatabaseProblem(RdsBlock, rds)
    else if DatabaseProblem(RedisBlock, redis).Some? then DatabaseProblem(RedisBlock, redis)
    else ClbProblem(clb)
  }

  /** The checks of one named account, reported with its position. */
  function AccountProblem(i: nat, a: Account): (r: Option<ConfigError>)
    ensures r.None? <==> AccountValid(a)
    ensures r.Some? ==> r.value.AccountError? && r.value.account == i
    ensures a.name == "" ==> r == Some(AccountError(i, NameRequired))
    ensures a.name != "" && CredentialsProblem(a.accessKeyId, a.accessKeySecret, a.regionId).Some? ==>
              r == Some(AccountError(i, CredentialsProblem(a.accessKeyId, a.accessKeySecret, a.regionId).value))
    ensures a.name != "" && CredentialsProblem(a.accessKeyId, a.accessKeySecret, a.regionId).None? && r.Some? ==>
              Some(r.value.problem) == ResourcesProblem(a.ecs, a.rds, a.redis, a.clb)
  {
    if a.name == "" then Some(AccountError(i, NameRequired))
    else match CredentialsProblem(a.accessKeyId, a.accessKeySecret, a.regionId)
      case Some(p) => Some(AccountError(i, p))
      case None =>
        match ResourcesProblem(a.ecs, a.rds, a.redis, a.clb)
        case Some(p) => Some(AccountError(i, p))
        case None => None
  }

  /** The checks of the legacy single-account block (no name required). */
  function LegacyProblem(a: Aliyun): (r: Option<ConfigError>)
    ensures r.None? <==> AliyunValid(a)
    ensures r.Some? ==> r.value.LegacyError?
    ensures CredentialsProblem(a.accessKeyId, a.accessKeySecret, a.regionId).Some? ==>
              r == Some(LegacyError(CredentialsProblem(a.accessKeyId, a.accessKeySecret, a.regionId).value))
    ensures CredentialsProblem(a.accessKeyId, a.accessKeySecret, a.regionId).None? && r.Some? ==>
              Some(r.value.problem) == ResourcesProblem(a.ecs, a.rds, a.redis, a.clb)
  {
    match CredentialsProblem(a.accessKeyId, a.accessKeySecret, a.regionId)
    case Some(p) => Some(LegacyError(p))
    case None =>
      match ResourcesProblem(a.ecs, a.rds, a.redis, a.clb)
      case Some(p) => Some(LegacyError(p))
      case None => None
  }

  /** `Config.Validate`: `None` exactly for a valid configuration; otherwise
      the first failing check, in the order interval, IP source, accounts
      (in order) or the legacy block. */
  function Validate(c: Config): (r: Option<ConfigError>)
    ensures r.None? <==> ConfigValid(c)
    ensures c.interval <= 0 ==> r == Some(IntervalNotPositive)
    ensures c.interval > 0 && !SourceValid(c.ipSource) ==> r == SourceProblem(c.ipSource)
    ensures r.Some? && r.value.AccountError? ==>
              && c.interval > 0 && SourceValid(c.ipSource)
              && r.value.account < |c.accounts|
              && !AccountValid(c.accounts[r.value.account])
              && forall k :: 0 <= k < r.value.account ==> AccountValid(c.accounts[k])
    ensures r.Some? && r.value.AccountError? ==> r == AccountProblem(r.value.account, c.accounts[r.value.account])
    ensures r.Some? && r.value.LegacyError? ==>
              c.interval > 0 && SourceValid(c.ipSource) && |c.accounts| == 0 && !AliyunValid(c.aliyun)
    ensures r.Some? && r.value.LegacyError? ==> r == LegacyProblem(c.aliyun)
  {
    if c.interval <= 0 then Some(IntervalNotPositive)
    else if SourceProblem(c.ipSource).Some? then SourceProblem(c.ipSource)
    else if |c.accounts| > 0 then FirstProblem(c.accounts, AccountProblem, 0)
    else LegacyProblem(c.aliyun)
  }

  /** With named accounts the legacy block is never examined. */
  lemma LegacyIgnoredWithAccounts(c: Config, legacy: Aliyun)
    requires |c.accounts| > 0
    ensures Validate(c.(aliyun := legacy)) == Validate(c)
  {
  }

  /** A disabled ECS block is never examined, whatever its targets; the
      other blocks are left as they are. */
  lemma DisabledEcsIgnored(a: Account, ecs: Ecs, i: nat)
    requires !a.ecs.enabled && !ecs.enabled
    ensures AccountProblem(i, a.(ecs := ecs)) == AccountProblem(i, a)
  {
  }

  /** A disabled RDS block is never examined, whatever its targets. */
  lemma DisabledRdsIgnored(a: Account, rds: Database, i: nat)
    requires !a.rds.enabled && !rds.enabled
    ensures AccountProblem(i, a.(rds := rds)) == AccountProblem(i, a)
  {
  }

  /** A disabled Redis block is never examined, whatever its targets. */
  lemma DisabledRedisIgnored(a: Account, redis: Database, i: nat)
    requires !a.redis.enabled && !redis.enabled
    ensures AccountProblem(i, a.(redis := redis)) == AccountProblem(i, a)
  {
  }

  /** A disabled CLB block is never examined, whatever its targets. */
  lemma DisabledClbIgnored(a: Account, clb: Clb, i: nat)
    requires !a.clb.enabled && !clb.enabled
    ensures AccountProblem(i, a.(clb := clb)) == AccountProblem(i, a)
  {
  }

  /** The same holds block by block for the legacy single-account block. */
  lemma LegacyDisabledBlockIgnored(a: Aliyun, ecs: Ecs, rds: Database, redis: Database, clb: Clb)
    ensures !a.ecs.enabled && !ecs.enabled ==> LegacyProblem(a.(ecs := ecs)) == LegacyProblem(a)
    ensures !a.rds.enabled && !rds.enabled ==> LegacyProblem(a.(rds := rds)) == LegacyProblem(a)
    ensures !a.redis.enabled && !redis.enabled ==> LegacyProblem(a.(redis := redis)) == LegacyProblem(a)
    ensures !a.clb.enabled && !clb.enabled ==> LegacyProblem(a.(clb := clb)) == LegacyProblem(a)
  {
  }

  /** All four blocks disabled: none of them is examined. */
  lemma DisabledBlocksIgnored(a: Account, ecs: Ecs, rds: Database, redis: Database, clb: Clb, i: nat)
    requires !a.ecs.enabled && !ecs.enabled
    requires !a.rds.enabled && !rds.enabled
    requires !a.redis.enabled && !redis.enabled
    requires !a.clb.enabled && !clb.enabled
    ensures AccountProblem(i, a.(ecs := ecs, rds := rds, redis := redis, clb := clb)) == AccountProblem(i, a)
  {
  }

  // ---------------------------------------------------------------------
  // Projections.
  // ---------------------------------------------------------------------

  /** `Account.GetAliyun`: the client configuration of an account. */
  function GetAliyun(a: Account): (r: Aliyun)
    ensures r.accessKeyId == a.accessKeyId && r.accessKeySecret == a.accessKeySecret
    ensures r.regionId == a.regionId
    ensures r.ecs == a.ecs && r.rds == a.rds && r.redis == a.redis && r.clb == a.clb
  {
    Aliyun(a.accessKeyId, a.accessKeySecret, a.regionId, a.ecs, a.rds, a.redis, a.clb)
  }

  /** An account passes exactly when it has a name and its projection passes
      the legacy checks: the two paths of `Validate` check the same things. */
  lemma {:induction false} AccountChecksAreLegacyChecks(i: nat, a: Account)
    ensures AccountProblem(i, a).None? <==> a.name != "" && LegacyProblem(GetAliyun(a)).None?
  {
    assert AccountValid(a) <==> a.name != "" && AliyunValid(GetAliyun(a));
  }

  const NanosPerSecond: int := 1_000_000_000
  const TwoTo63: int := 0x8000_0000_0000_0000
  /** The largest interval, in seconds, whose duration fits in an int64. */
  const MaxIntervalSeconds: int := (TwoTo63 - 1) / NanosPerSecond

  /** Go's signed 64-bit wrap-around. */
  function WrapInt64(x: int): (r: int)
    ensures -TwoTo63 <= r < TwoTo63
    ensures (r - x) % (2 * TwoTo63) == 0
    ensures -TwoTo63 <= x < TwoTo63 ==> r == x
  {
    var m := x % (2 * TwoTo63);
    if m >= TwoTo63 then m - 2 * TwoTo63 else m
  }

  /** `Config.GetInterval`: `interval` seconds as a `time.Duration`, i.e. an
      int64 count of nanoseconds. */
  function GetInterval(c: Config): (d: int)
    ensures -TwoTo63 <= d < TwoTo63
    ensures 0 < c.interval <= MaxIntervalSeconds ==> d == c.interval * NanosPerSecond && d > 0
  {
    WrapInt64(c.interval * NanosPerSecond)
  }
}
