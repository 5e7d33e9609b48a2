/** The Alibaba Cloud adapters of internal/aliyun/aliyun.go as functions of
    the provider state: the ECS rule a security group entry stands for, the
    revoke error filter, the RDS/Redis whitelist group lookup and update, the
    CLB access control list read and rewrite, and the four update loops, which
    visit their targets in order and stop at the first failure. */
module Aliyun {
  import opened Wrappers
  import opened Strings
  import opened Whitelist
  import opened Provider
  import Config

  const AutoComment: string := "Auto added by cloud-whitelist-manager"

  /** The mask that makes an IP a single-host CIDR block. */
  const HostMask: string := "/32"

  /** The port setting that opens every protocol and port. */
  const AllPorts: string := "-1/-1"

  /** The error code the provider gives when a revoked rule does not exist. */
  const RuleNotFound: string := "InvalidParam.SourceCidrIp"

  // ---------------------------------------------------------------------
  // ECS security group rules
  // ---------------------------------------------------------------------

  datatype PortSpec = PortSpec(ipProtocol: string, portRange: string)

  /** The protocol and port range of the rule for a configured port: every
      protocol for "-1/-1", TCP otherwise, a single port `p` becoming the range
      "p/p". */
  function NormalizePort(port: string): (r: PortSpec)
    ensures r.ipProtocol == (if port == AllPorts then "all" else "tcp")
    ensures Contains(r.portRange, "/")
    ensures r.portRange == port <==> Contains(port, "/")
  {
    if port == AllPorts then
      assert OccursAt(port, "/", 2);
      ContainsAt(port, "/");
      PortSpec("all", AllPorts)
    else if Contains(port, "/") then PortSpec("tcp", port)
    else
      assert OccursAt(port + "/" + port, "/", |port|);
      ContainsAt(port + "/" + port, "/");
      PortSpec("tcp", port + "/" + port)
  }

  /** A single port `p` becomes the range whose two ends are both `p`. */
  lemma SinglePortRange(port: string)
    requires !Contains(port, "/")
    ensures Split(NormalizePort(port).portRange, '/') == [port, port]
  {
    assert '/' !in port by {
      if '/' in port {
        var i :| 0 <= i < |port| && port[i] == '/';
        assert OccursAt(port, "/", i);
        ContainsAt(port, "/");
      }
    }
    SplitPiece(port, '/', port);
    assert port + "/" + port == port + ['/'] + port;
  }

  /** Normalising a normalised range changes nothing. */
  lemma NormalizePortIdempotent(port: string)
    ensures NormalizePort(NormalizePort(port).portRange).portRange == NormalizePort(port).portRange
  {
  }

  /** The rule revoked or authorized for `ip` on a configured security group;
      revocation and authorization use this same rule. */
  function SecurityRule(ip: string, sg: Config.SecurityGroup): (r: Rule)
    ensures r.sourceCidrIp == ip + HostMask && r.priority == sg.priority
    ensures PortSpec(r.ipProtocol, r.portRange) == NormalizePort(sg.port)
  {
    var spec := NormalizePort(sg.port);
    Rule(spec.ipProtocol, spec.portRange, ip + HostMask, sg.priority)
  }

  /** The rule's source block names exactly the IP it was made for. */
  lemma SourceCidrNamesIp(ip: string, sg: Config.SecurityGroup)
    ensures TrimSuffix(SecurityRule(ip, sg).sourceCidrIp, HostMask) == ip
  {
    TrimSuffixOfAppended(ip, HostMask);
  }

  /** The revoke error filter: an error saying the rule does not exist counts
      as success; any other error is kept. */
  function RevokeOutcome(e: Option<string>): (r: Option<string>)
    ensures r.None? <==> e.None? || Contains(e.value, RuleNotFound)
    ensures r.Some? ==> r == e
  {
    match e
    case Some(msg) => if Contains(msg, RuleNotFound) then None else e
    case None => None
  }

  /** `removeIPFromECSSecurityGroup`: one revoke call for the rule of `ip`,
      through the error filter. */
  function RevokeRule(c: Cloud, ip: string, sg: Config.SecurityGroup): (r: (Cloud, Option<string>))
    ensures r.0.trace == c.trace + [RevokeSecurityGroup(sg.securityGroupId, SecurityRule(ip, sg))]
    ensures r.0.faults == c.faults
    ensures r.1 == RevokeOutcome(NextFault(c))
    ensures NextFault(c).None? ==> SecurityRule(ip, sg) !in RulesOf(r.0, sg.securityGroupId)
  {
    var (c1, e) := Perform(c, RevokeSecurityGroup(sg.securityGroupId, SecurityRule(ip, sg)));
    (c1, RevokeOutcome(e))
  }

  /** `addIPToECSSecurityGroup`: one authorize call for the rule of `ip`; its
      error is returned unchanged. */
  function AuthorizeRule(c: Cloud, ip: string, sg: Config.SecurityGroup): (r: (Cloud, Option<string>))
    ensures r.0.trace == c.trace + [AuthorizeSecurityGroup(sg.securityGroupId, SecurityRule(ip, sg))]
    ensures r.0.faults == c.faults
    ensures r.1 == NextFault(c)
    ensures r.1.None? ==> SecurityRule(ip, sg) in RulesOf(r.0, sg.securityGroupId)
  {
    Perform(c, AuthorizeSecurityGroup(sg.securityGroupId, SecurityRule(ip, sg)))
  }

  // ---------------------------------------------------------------------
  // RDS and Redis whitelist groups
  // ---------------------------------------------------------------------

  /** Why reading or writing a whitelist failed. */
  datatype Cause = ProviderError(msg: string) | GroupNotFound(group: string, instance: string)

  /** `k` is the position of the first group called `name`. */
  predicate FirstNamed(groups: seq<IpGroup>, name: string, k: int) {
    && 0 <= k < |groups| && groups[k].name == name
    && forall j :: 0 <= j < k ==> groups[j].name != name
  }

  /** The IP list of the first group called `name`, if any. */
  function FindGroup(groups: seq<IpGroup>, name: string): (r: Option<string>)
    ensures r.None? <==> forall k :: 0 <= k < |groups| ==> groups[k].name != name
  {
    if groups == [] then None
    else if groups[0].name == name then Some(groups[0].ips)
    else FindGroup(groups[1..], name)
  }

  /** A found list is that of the first group with the name. */
  lemma {:induction false} FindGroupFirst(groups: seq<IpGroup>, name: string)
    requires FindGroup(groups, name).Some?
    ensures exists k :: FirstNamed(groups, name, k) && FindGroup(groups, name).value == groups[k].ips
  {
    if groups[0].name == name {
      assert FirstNamed(groups, name, 0);
    } else {
      FindGroupFirst(groups[1..], name);
      var k :| FirstNamed(groups[1..], name, k) && FindGroup(groups[1..], name).value == groups[1..][k].ips;
      assert FirstNamed(groups, name, k + 1);
    }
  }

  /** After the provider sets a group's list, looking that group up finds it. */
  lemma {:induction false} FindAfterSet(groups: seq<IpGroup>, name: string, ips: string)
    ensures FindGroup(SetGroup(groups, name, ips), name) == Some(ips)
  {
    if groups != [] && groups[0].name != name {
      FindAfterSet(groups[1..], name, ips);
    }
  }

  /** Setting one group's list leaves the lookup of any other name unchanged. */
  lemma {:induction false} FindAfterSetOther(groups: seq<IpGroup>, name: string, ips: string, other: string)
    requires other != name
    ensures FindGroup(SetGroup(groups, name, ips), other) == FindGroup(groups, other)
  {
    if groups != [] && groups[0].name != name {
      FindAfterSetOther(groups[1..], name, ips, other);
    }
  }

  /** `getRDSWhitelist` / `getRedisWhitelist`: one describe call, then the list
      of the first group with the configured name, or a "not found" error. */
  function DescribeGroupList(c: Cloud, kind: Kind, iw: Config.InstanceWhitelist): (r: (Cloud, Result<string, Cause>))
    ensures r.0 == c.(trace := c.trace + [DescribeSecurityIps(kind, iw.instanceId)])
    ensures r.1.Success? <==> NextFault(c).None? && FindGroup(GroupsOf(c, kind, iw.instanceId), iw.whitelistName).Some?
    ensures r.1.Success? ==> Some(r.1.value) == FindGroup(GroupsOf(c, kind, iw.instanceId), iw.whitelistName)
    ensures r.1.Failure? && NextFault(c).None? ==> r.1.error == GroupNotFound(iw.whitelistName, iw.instanceId)
  {
    var (c1, e) := Perform(c, DescribeSecurityIps(kind, iw.instanceId));
    if e.Some? then (c1, Failure(ProviderError(e.value)))
    else
      match FindGroup(GroupsOf(c, kind, iw.instanceId), iw.whitelistName)
      case Some(list) => (c1, Success(list))
      case None => (c1, Failure(GroupNotFound(iw.whitelistName, iw.instanceId)))
  }

  /** `setRDSWhitelist` / `setRedisWhitelist`: one modify call writing `list`
      into the configured group. */
  function ModifyGroupList(c: Cloud, kind: Kind, list: string, iw: Config.InstanceWhitelist): (r: (Cloud, Option<string>))
    ensures r.0.trace == c.trace + [ModifySecurityIps(kind, iw.instanceId, iw.whitelistName, list)]
    ensures r.0.faults == c.faults && r.1 == NextFault(c)
    ensures r.1.None? ==> FindGroup(GroupsOf(r.0, kind, iw.instanceId), iw.whitelistName) == Some(list)
  {
    FindAfterSet(GroupsOf(c, kind, iw.instanceId), iw.whitelistName, list);
    Perform(c, ModifySecurityIps(kind, iw.instanceId, iw.whitelistName, list))
  }

  // ---------------------------------------------------------------------
  // CLB access control lists
  // ---------------------------------------------------------------------

  /** The entries of an access control list with one trailing "/32" removed. */
  function StripMasks(entries: seq<AclEntry>): (r: seq<string>)
    ensures |r| == |entries|
    ensures forall k :: 0 <= k < |r| ==> r[k] == TrimSuffix(entries[k].entry, HostMask)
  {
    seq(|entries|, k requires 0 <= k < |entries| => TrimSuffix(entries[k].entry, HostMask))
  }

  /** The whitelist an access control list stands for. */
  function AclList(entries: seq<AclEntry>): string {
    Join(StripMasks(entries), Comma)
  }

  /** The trimmed non-empty pieces, in order. */
  function TrimmedPieces(pieces: seq<string>): (r: seq<string>)
    ensures forall k :: 0 <= k < |r| ==> r[k] != "" && Trimmed(r[k])
  {
    if pieces == [] then []
    else
      var prev := TrimmedPieces(pieces[..|pieces| - 1]);
      var ip := TrimSpace(pieces[|pieces| - 1]);
      if ip != "" then prev + [ip] else prev
  }

  /** The entries `setCLBWhitelist` adds for a list of pieces: each trimmed
      non-empty piece as a single-host block, with the tool's comment. */
  function EntriesToAdd(pieces: seq<string>): (r: seq<AclEntry>)
    ensures forall k :: 0 <= k < |r| ==> r[k].comment == AutoComment
  {
    if pieces == [] then []
    else
      var prev := EntriesToAdd(pieces[..|pieces| - 1]);
      var ip := TrimSpace(pieces[|pieces| - 1]);
      if ip != "" then prev + [AclEntry(ip + HostMask, AutoComment)] else prev
  }

  lemma EntriesToAddSnoc(init: seq<string>, last: string)
    ensures var ip := TrimSpace(last);
            EntriesToAdd(init + [last]) ==
              if ip != "" then EntriesToAdd(init) + [AclEntry(ip + HostMask, AutoComment)] else EntriesToAdd(init)
  {
    assert (init + [last])[..|init|] == init;
  }

  /** Reading back the added entries gives the trimmed non-empty pieces. */
  lemma {:induction false} StripEntriesToAdd(pieces: seq<string>)
    ensures StripMasks(EntriesToAdd(pieces)) == TrimmedPieces(pieces)
  {
    if pieces != [] {
      var init := pieces[..|pieces| - 1];
      var ip := TrimSpace(pieces[|pieces| - 1]);
      StripEntriesToAdd(init);
      if ip != "" {
        TrimSuffixOfAppended(ip, HostMask);
        var es := EntriesToAdd(init) + [AclEntry(ip + HostMask, AutoComment)];
        assert StripMasks(es) == StripMasks(EntriesToAdd(init)) + [ip];
      }
    }
  }

  /** The trimmed pieces name the same entries as the pieces. */
  lemma {:induction false} TrimmedPiecesMembers(pieces: seq<string>)
    ensures PieceMembers(TrimmedPieces(pieces)) == PieceMembers(pieces)
  {
    if pieces != [] {
      var init := pieces[..|pieces| - 1];
      var ip := TrimSpace(pieces[|pieces| - 1]);
      TrimmedPiecesMembers(init);
      if ip != "" {
        var tp := TrimmedPieces(init) + [ip];
        assert tp[..|tp| - 1] == TrimmedPieces(init);
        TrimSpaceIdempotent(pieces[|pieces| - 1]);
      }
    }
  }

  /** Trimming comma-free pieces keeps them comma-free. */
  lemma {:induction false} TrimmedPiecesCommaFree(pieces: seq<string>)
    requires forall k :: 0 <= k < |pieces| ==> Comma !in pieces[k]
    ensures forall k :: 0 <= k < |TrimmedPieces(pieces)| ==> Comma !in TrimmedPieces(pieces)[k]
  {
    if pieces != [] {
      TrimmedPiecesCommaFree(pieces[..|pieces| - 1]);
      TrimSpaceIsSlice(pieces[|pieces| - 1]);
    }
  }

  /** Writing a whitelist into an access control list and reading it back
      gives its trimmed non-empty elements joined with commas. */
  lemma AclListOfEntriesToAdd(list: string)
    ensures AclList(EntriesToAdd(Split(list, Comma))) == Join(TrimmedPieces(Split(list, Comma)), Comma)
  {
    StripEntriesToAdd(Split(list, Comma));
  }

  /** ... and the list read back stands for the same membership. */
  lemma AclListMembers(list: string)
    ensures Members(AclList(EntriesToAdd(Split(list, Comma)))) == Members(list)
  {
    var pieces := Split(list, Comma);
    var tp := TrimmedPieces(pieces);
    AclListOfEntriesToAdd(list);
    TrimmedPiecesMembers(pieces);
    if tp == [] {
      assert Split("", Comma) == [""];
      assert PieceMembers([""]) == {};
      assert PieceMembers([]) == {};
    } else {
      TrimmedPiecesCommaFree(pieces);
      SplitJoin(tp, Comma);
      PieceMembersOfEntries(tp);
    }
  }

  /** `getCLBWhitelist`: one describe call, then the entries with their masks
      stripped, joined with commas in the provider's order. */
  function DescribeAclList(c: Cloud, lbw: Config.LoadBalancerWhitelist): (r: (Cloud, Result<string, string>))
    ensures r.0 == c.(trace := c.trace + [DescribeAccessControlList(lbw.aclId)])
    ensures r.1.Failure? <==> NextFault(c).Some?
    ensures r.1.Success? ==> r.1.value == AclList(AclOf(c, lbw.aclId))
  {
    var (c1, e) := Perform(c, DescribeAccessControlList(lbw.aclId));
    if e.Some? then (c1, Failure(e.value)) else (c1, Success(AclList(AclOf(c, lbw.aclId))))
  }

  /** The remove call of `setCLBWhitelist`, made only when the list has
      entries, all of which it lists. */
  function ClearEntries(c: Cloud, id: string, current: seq<AclEntry>): (r: (Cloud, Option<string>))
    requires current == AclOf(c, id)
    ensures r.0.trace == c.trace + (if |current| > 0 then [RemoveAccessControlListEntry(id, current)] else [])
    ensures r.0.faults == c.faults
    ensures r.1.None? ==> AclOf(r.0, id) == []
    ensures r.1.Some? ==> AclOf(r.0, id) == current
    ensures r.0.rules == c.rules && r.0.groups == c.groups
    ensures forall other :: other != id ==> AclOf(r.0, other) == AclOf(c, other)
  {
    RemoveAll(current);
    if |current| > 0 then Perform(c, RemoveAccessControlListEntry(id, current)) else (c, None)
  }

  /** The add call of `setCLBWhitelist`, made only when there is something to add. */
  function AddEntries(c: Cloud, id: string, adds: seq<AclEntry>): (r: (Cloud, Option<string>))
    ensures r.0.trace == c.trace + (if |adds| > 0 then [AddAccessControlListEntry(id, adds)] else [])
    ensures r.0.faults == c.faults
    ensures r.1.None? ==> AclOf(r.0, id) == AclOf(c, id) + adds
    ensures r.1.Some? ==> AclOf(r.0, id) == AclOf(c, id)
    ensures r.0.rules == c.rules && r.0.groups == c.groups
    ensures forall other :: other != id ==> AclOf(r.0, other) == AclOf(c, other)
  {
    if |adds| > 0 then Perform(c, AddAccessControlListEntry(id, adds)) else (c, None)
  }

  /** `setCLBWhitelist`: describe the list; remove all its entries, when it has
      any; then add an entry for every trimmed non-empty element of `list`,
      when there is one. The first failing call ends it. */
  function ReplaceAclEntries(c: Cloud, list: string, lbw: Config.LoadBalancerWhitelist): (r: (Cloud, Option<string>))
    ensures c.trace <= r.0.trace && r.0.faults == c.faults
    ensures r.0.rules == c.rules && r.0.groups == c.groups
    ensures forall other :: other != lbw.aclId ==> AclOf(r.0, other) == AclOf(c, other)
  {
    var id := lbw.aclId;
    var (c1, e1) := Perform(c, DescribeAccessControlList(id));
    if e1.Some? then (c1, e1)
    else
      var (c2, e2) := ClearEntries(c1, id, AclOf(c, id));
      if e2.Some? || list == "" then (c2, e2)
      else AddEntries(c2, id, EntriesToAdd(Split(list, Comma)))
  }

  /** The calls `setCLBWhitelist` makes when none fails: the remove call only
      for a non-empty list, listing all its entries, and the add call only
      when there is something to add. */
  function AclCalls(c: Cloud, list: string, id: string): seq<Call> {
    var current := AclOf(c, id);
    var adds := if list == "" then [] else EntriesToAdd(Split(list, Comma));
    [DescribeAccessControlList(id)]
      + (if |current| > 0 then [RemoveAccessControlListEntry(id, current)] else [])
      + (if |adds| > 0 then [AddAccessControlListEntry(id, adds)] else [])
  }

  lemma EntriesToAddEmpty()
    ensures EntriesToAdd(Split("", Comma)) == []
  {
    assert Split("", Comma) == [""];
    assert [""][..0] == [];
  }

  /** A successful rewrite makes exactly the planned calls. */
  lemma ReplaceAclTrace(c: Cloud, list: string, lbw: Config.LoadBalancerWhitelist)
    requires ReplaceAclEntries(c, list, lbw).1.None?
    ensures ReplaceAclEntries(c, list, lbw).0.trace == c.trace + AclCalls(c, list, lbw.aclId)
  {
  }

  /** After a successful rewrite the list holds exactly the entries to add. */
  lemma ReplaceAclContents(c: Cloud, list: string, lbw: Config.LoadBalancerWhitelist)
    requires ReplaceAclEntries(c, list, lbw).1.None?
    ensures AclOf(ReplaceAclEntries(c, list, lbw).0, lbw.aclId) == EntriesToAdd(Split(list, Comma))
  {
    EntriesToAddEmpty();
  }

  /** When the add call fails after the old entries were removed, the list is
      left empty. */
  lemma ReplaceAclAddFails(c: Cloud, list: string, lbw: Config.LoadBalancerWhitelist)
    requires var calls := AclCalls(c, list, lbw.aclId);
             && calls[|calls| - 1].AddAccessControlListEntry?
             && ReplaceAclEntries(c, list, lbw).0.trace == c.trace + calls
             && ReplaceAclEntries(c, list, lbw).1.Some?
    ensures AclOf(ReplaceAclEntries(c, list, lbw).0, lbw.aclId) == []
  {
  }

  /** Reading a list back after a successful rewrite gives the trimmed
      non-empty elements of what was written. */
  lemma FetchAfterReplace(c: Cloud, list: string, lbw: Config.LoadBalancerWhitelist)
    requires ReplaceAclEntries(c, list, lbw).1.None?
    requires NextFault(ReplaceAclEntries(c, list, lbw).0).None?
    ensures DescribeAclList(ReplaceAclEntries(c, list, lbw).0, lbw).1 == Success(Join(TrimmedPieces(Split(list, Comma)), Comma))
  {
    ReplaceAclContents(c, list, lbw);
    AclListOfEntriesToAdd(list);
  }

  // ---------------------------------------------------------------------
  // The update loops
  // ---------------------------------------------------------------------

  /** One unit of work of an update loop. */
  datatype Target =
    | RevokeTarget(sg: Config.SecurityGroup)       // remove the old IP from a security group
    | AuthorizeTarget(sg: Config.SecurityGroup)    // add the new IP to a security group
    | InstanceTarget(kind: Kind, iw: Config.InstanceWhitelist)  // an RDS or Redis whitelist group
    | AclTarget(lbw: Config.LoadBalancerWhitelist)  // a CLB access control list

  /** The stage of an update that failed. */
  datatype Stage = RemoveOld | AddNew | Fetch | Store

  /** An update error: the stage, the resource kind, the security group,
      instance or access control list it names, and the cause. */
  datatype UpdateError = UpdateError(stage: Stage, kind: Kind, target: string, cause: Cause)

  datatype Outcome = Outcome(cloud: Cloud, err: Option<UpdateError>)

  function Blame(e: Option<string>, stage: Stage, kind: Kind, id: string): Option<UpdateError> {
    match e
    case Some(msg) => Some(UpdateError(stage, kind, id, ProviderError(msg)))
    case None => None
  }

  /** One target of an update from `oldIP` to `newIP`: a revoke or an authorize
      call for a security group, or get, `updateIPList` and set for a
      whitelist group or an access control list. */
  function Step(c: Cloud, t: Target, oldIP: string, newIP: string): (r: Outcome)
    ensures c.trace <= r.cloud.trace && r.cloud.faults == c.faults
  {
    match t
    case RevokeTarget(sg) =>
      var (c1, e) := RevokeRule(c, oldIP, sg);
      Outcome(c1, Blame(e, RemoveOld, Ecs, sg.securityGroupId))
    case AuthorizeTarget(sg) =>
      var (c1, e) := AuthorizeRule(c, newIP, sg);
      Outcome(c1, Blame(e, AddNew, Ecs, sg.securityGroupId))
    case InstanceTarget(kind, iw) =>
      var (c1, got) := DescribeGroupList(c, kind, iw);
      if got.Failure? then Outcome(c1, Some(UpdateError(Fetch, kind, iw.instanceId, got.error)))
      else
        var (c2, e) := ModifyGroupList(c1, kind, UpdatedIPList(got.value, oldIP, newIP), iw);
        Outcome(c2, Blame(e, Store, kind, iw.instanceId))
    case AclTarget(lbw) =>
      var (c1, got) := DescribeAclList(c, lbw);
      if got.Failure? then Outcome(c1, Some(UpdateError(Fetch, Clb, lbw.aclId, ProviderError(got.error))))
      else
        var (c2, e) := ReplaceAclEntries(c1, UpdatedIPList(got.value, oldIP, newIP), lbw);
        Outcome(c2, Blame(e, Store, Clb, lbw.aclId))
  }

  /** The targets in order, stopping at the first that fails. */
  function Each(c: Cloud, ts: seq<Target>, oldIP: string, newIP: string): (r: Outcome)
    ensures c.trace <= r.cloud.trace && r.cloud.faults == c.faults
    decreases |ts|
  {
    if ts == [] then Outcome(c, None)
    else
      var first := Step(c, ts[0], oldIP, newIP);
      if first.err.Some? then first else Each(first.cloud, ts[1..], oldIP, newIP)
  }

  /** Running two lists of targets one after the other is running their
      concatenation. */
  lemma {:induction false} EachAppend(c: Cloud, a: seq<Target>, b: seq<Target>, oldIP: string, newIP: string)
    ensures Each(c, a + b, oldIP, newIP) ==
              var first := Each(c, a, oldIP, newIP);
              if first.err.Some? then first else Each(first.cloud, b, oldIP, newIP)
    decreases |a|
  {
    if a != [] {
      assert (a + b)[0] == a[0];
      assert (a + b)[1..] == a[1..] + b;
      var first := Step(c, a[0], oldIP, newIP);
      if first.err.None? {
        EachAppend(first.cloud, a[1..], b, oldIP, newIP);
      }
    } else {
      assert a + b == b;
    }
  }

  /** The first failure ends the loop: a failed run is the failed step of some
      target `k`, reached after every earlier target succeeded, and no later
      target is visited. */
  lemma {:induction false} EachStopsAtFirstFailure(c: Cloud, ts: seq<Target>, oldIP: string, newIP: string)
    requires Each(c, ts, oldIP, newIP).err.Some?
    ensures exists k :: 0 <= k < |ts| && FailsAt(c, ts, oldIP, newIP, k)
    decreases |ts|
  {
    var first := Step(c, ts[0], oldIP, newIP);
    if first.err.Some? {
      assert ts[..0] == [];
      assert FailsAt(c, ts, oldIP, newIP, 0);
    } else {
      EachStopsAtFirstFailure(first.cloud, ts[1..], oldIP, newIP);
      var k :| 0 <= k < |ts| - 1 && FailsAt(first.cloud, ts[1..], oldIP, newIP, k);
      assert ts[..k + 1] == [ts[0]] + ts[1..][..k];
      EachAppend(c, [ts[0]], ts[1..][..k], oldIP, newIP);
      assert FailsAt(c, ts, oldIP, newIP, k + 1);
    }
  }

  /** Target `k` is the one a run fails at: the targets before it all
      succeeded and the run's outcome is that of target `k`'s failed step. */
  predicate FailsAt(c: Cloud, ts: seq<Target>, oldIP: string, newIP: string, k: int)
    requires 0 <= k < |ts|
  {
    var before := Each(c, ts[..k], oldIP, newIP);
    var last := Step(before.cloud, ts[k], oldIP, newIP);
    && before.err.None?
    && last.err.Some?
    && Each(c, ts, oldIP, newIP) == last
  }

  // ---------------------------------------------------------------------
  // The targets of the four update loops
  // ---------------------------------------------------------------------

  function Revokes(sgs: seq<Config.SecurityGroup>): (r: seq<Target>)
    ensures |r| == |sgs| && forall k :: 0 <= k < |r| ==> r[k] == RevokeTarget(sgs[k])
  {
    seq(|sgs|, k requires 0 <= k < |sgs| => RevokeTarget(sgs[k]))
  }

  function Authorizes(sgs: seq<Config.SecurityGroup>): (r: seq<Target>)
    ensures |r| == |sgs| && forall k :: 0 <= k < |r| ==> r[k] == AuthorizeTarget(sgs[k])
  {
    seq(|sgs|, k requires 0 <= k < |sgs| => AuthorizeTarget(sgs[k]))
  }

  /** `UpdateECSWhitelist`: nothing when disabled; otherwise the old IP is
      revoked from every group, when there is one, and then the new IP is
      authorized on every group, when there is one. */
  function EcsTargets(ecs: Config.Ecs, oldIP: string, newIP: string): seq<Target> {
    if !ecs.enabled then []
    else
      (if oldIP != "" then Revokes(ecs.securityGroups) else [])
      + (if newIP != "" then Authorizes(ecs.securityGroups) else [])
  }

  /** `UpdateRDSWhitelist` / `UpdateRedisWhitelist`: nothing when disabled;
      otherwise every configured whitelist group in order. */
  function InstanceTargets(kind: Kind, db: Config.Database): (r: seq<Target>)
    ensures |r| == (if db.enabled then |db.instanceWhitelists| else 0)
    ensures forall k :: 0 <= k < |r| ==> r[k] == InstanceTarget(kind, db.instanceWhitelists[k])
  {
    if !db.enabled then []
    else seq(|db.instanceWhitelists|, k requires 0 <= k < |db.instanceWhitelists| => InstanceTarget(kind, db.instanceWhitelists[k]))
  }

  /** `UpdateCLBWhitelist`: nothing when disabled; otherwise every configured
      access control list in order. */
  function AclTargets(clb: Config.Clb): (r: seq<Target>)
    ensures |r| == (if clb.enabled then |clb.loadBalancerWhitelists| else 0)
    ensures forall k :: 0 <= k < |r| ==> r[k] == AclTarget(clb.loadBalancerWhitelists[k])
  {
    if !clb.enabled then []
    else seq(|clb.loadBalancerWhitelists|, k requires 0 <= k < |clb.loadBalancerWhitelists| => AclTarget(clb.loadBalancerWhitelists[k]))
  }

  /** A disabled kind makes no call and succeeds. */
  lemma DisabledKindIsNoOp(c: Cloud, cfg: Config.Aliyun, oldIP: string, newIP: string)
    ensures !cfg.ecs.enabled ==> Each(c, EcsTargets(cfg.ecs, oldIP, newIP), oldIP, newIP) == Outcome(c, None)
    ensures !cfg.rds.enabled ==> Each(c, InstanceTargets(Rds, cfg.rds), oldIP, newIP) == Outcome(c, None)
    ensures !cfg.redis.enabled ==> Each(c, InstanceTargets(Redis, cfg.redis), oldIP, newIP) == Outcome(c, None)
    ensures !cfg.clb.enabled ==> Each(c, AclTargets(cfg.clb), oldIP, newIP) == Outcome(c, None)
  {
  }

  // ---------------------------------------------------------------------
  // ECS: the calls made, in order
  // ---------------------------------------------------------------------

  predicate IsRuleTarget(t: Target) {
    t.RevokeTarget? || t.AuthorizeTarget?
  }

  /** The resource a target names: a security group, an instance or an
      access control list. */
  function TargetId(t: Target): string {
    match t
    case RevokeTarget(sg) => sg.securityGroupId
    case AuthorizeTarget(sg) => sg.securityGroupId
    case InstanceTarget(_, iw) => iw.instanceId
    case AclTarget(lbw) => lbw.aclId
  }

  /** The first call a target makes: for a security group target, the only
      one. */
  function FirstCall(t: Target, oldIP: string, newIP: string): Call {
    match t
    case RevokeTarget(sg) => RevokeSecurityGroup(sg.securityGroupId, SecurityRule(oldIP, sg))
    case AuthorizeTarget(sg) => AuthorizeSecurityGroup(sg.securityGroupId, SecurityRule(newIP, sg))
    case InstanceTarget(kind, iw) => DescribeSecurityIps(kind, iw.instanceId)
    case AclTarget(lbw) => DescribeAccessControlList(lbw.aclId)
  }

  function FirstCalls(ts: seq<Target>, oldIP: string, newIP: string): (r: seq<Call>)
    ensures |r| == |ts|
    decreases |ts|
  {
    if ts == [] then [] else [FirstCall(ts[0], oldIP, newIP)] + FirstCalls(ts[1..], oldIP, newIP)
  }

  lemma {:induction false} FirstCallsSnoc(ts: seq<Target>, t: Target, oldIP: string, newIP: string)
    ensures FirstCalls(ts + [t], oldIP, newIP) == FirstCalls(ts, oldIP, newIP) + [FirstCall(t, oldIP, newIP)]
    decreases |ts|
  {
    if ts != [] {
      assert (ts + [t])[1..] == ts[1..] + [t];
      FirstCallsSnoc(ts[1..], t, oldIP, newIP);
    }
  }

  lemma RuleStepTrace(c: Cloud, t: Target, oldIP: string, newIP: string)
    requires IsRuleTarget(t)
    ensures Step(c, t, oldIP, newIP).cloud.trace == c.trace + [FirstCall(t, oldIP, newIP)]
  {
  }

  /** A successful run over security group targets makes exactly one call
      per target, in order. */
  lemma {:induction false} RuleTargetsTrace(c: Cloud, ts: seq<Target>, oldIP: string, newIP: string)
    requires forall k :: 0 <= k < |ts| ==> IsRuleTarget(ts[k])
    requires Each(c, ts, oldIP, newIP).err.None?
    ensures Each(c, ts, oldIP, newIP).cloud.trace == c.trace + FirstCalls(ts, oldIP, newIP)
    decreases |ts|
  {
    if ts != [] {
      var first := Step(c, ts[0], oldIP, newIP);
      var call := FirstCall(ts[0], oldIP, newIP);
      var rest := FirstCalls(ts[1..], oldIP, newIP);
      assert first.err.None? && Each(c, ts, oldIP, newIP) == Each(first.cloud, ts[1..], oldIP, newIP);
      RuleStepTrace(c, ts[0], oldIP, newIP);
      RuleTargetsTrace(first.cloud, ts[1..], oldIP, newIP);
      assert FirstCalls(ts, oldIP, newIP) == [call] + rest;
      assert (c.trace + [call]) + rest == c.trace + ([call] + rest);
    }
  }

  /** A failed run over security group targets made the calls of the targets
      up to the failing one and no more, and its error names the failing
      group and stage. */
  lemma RuleTargetsFailure(c: Cloud, ts: seq<Target>, oldIP: string, newIP: string, k: int)
    requires forall j :: 0 <= j < |ts| ==> IsRuleTarget(ts[j])
    requires 0 <= k < |ts| && FailsAt(c, ts, oldIP, newIP, k)
    ensures var r := Each(c, ts, oldIP, newIP);
            && r.cloud.trace == c.trace + FirstCalls(ts[..k + 1], oldIP, newIP)
            && r.err.value.target == TargetId(ts[k])
            && r.err.value.stage == (if ts[k].RevokeTarget? then RemoveOld else AddNew)
  {
    RuleTargetsTrace(c, ts[..k], oldIP, newIP);
    RuleStepTrace(Each(c, ts[..k], oldIP, newIP).cloud, ts[k], oldIP, newIP);
    assert ts[..k + 1] == ts[..k] + [ts[k]];
    FirstCallsSnoc(ts[..k], ts[k], oldIP, newIP);
  }

  /** The ECS calls: a revoke of the old IP on every group, in order, then an
      authorize of the new IP on every group, in order; so no group gains the
      new IP before every group has lost the old one. */
  lemma EcsCallOrder(ecs: Config.Ecs, oldIP: string, newIP: string)
    requires ecs.enabled
    ensures var ts := EcsTargets(ecs, oldIP, newIP);
            var sgs := ecs.securityGroups;
            var revokes := if oldIP != "" then |sgs| else 0;
            && (forall k :: 0 <= k < |ts| ==> IsRuleTarget(ts[k]))
            && |ts| == revokes + (if newIP != "" then |sgs| else 0)
            && (forall k :: 0 <= k < revokes ==> ts[k] == RevokeTarget(sgs[k]))
            && (forall k :: revokes <= k < |ts| ==> ts[k] == AuthorizeTarget(sgs[k - revokes]))
  {
  }

  // ---------------------------------------------------------------------
  // What a successful update leaves behind
  // ---------------------------------------------------------------------

  /** The state a target is in after it was updated from `oldIP` to `newIP`:
      the security group has the rule for the new IP, or the whitelist group
      or access control list holds the new IP and not a different old one. */
  predicate Holds(c: Cloud, t: Target, oldIP: string, newIP: string) {
    match t
    case RevokeTarget(_) => true
    case AuthorizeTarget(sg) => SecurityRule(newIP, sg) in RulesOf(c, sg.securityGroupId)
    case InstanceTarget(kind, iw) =>
      var found := FindGroup(GroupsOf(c, kind, iw.instanceId), iw.whitelistName);
      found.Some? && Reconciled(found.value, oldIP, newIP)
    case AclTarget(lbw) => Reconciled(AclList(AclOf(c, lbw.aclId)), oldIP, newIP)
  }

  lemma AuthorizeKeeps(c: Cloud, sg: Config.SecurityGroup, u: Target, oldIP: string, newIP: string)
    requires Step(c, AuthorizeTarget(sg), oldIP, newIP).err.None?
    ensures var c' := Step(c, AuthorizeTarget(sg), oldIP, newIP).cloud;
            && Holds(c', AuthorizeTarget(sg), oldIP, newIP)
            && (Holds(c, u, oldIP, newIP) ==> Holds(c', u, oldIP, newIP))
  {
    var c' := Step(c, AuthorizeTarget(sg), oldIP, newIP).cloud;
    assert c'.groups == c.groups && c'.acls == c.acls;
    assert forall id :: RulesOf(c, id) <= RulesOf(c', id);
  }

  lemma InstanceKeeps(c: Cloud, kind: Kind, iw: Config.InstanceWhitelist, u: Target, oldIP: string, newIP: string)
    requires Comma !in newIP && Trimmed(newIP)
    requires Step(c, InstanceTarget(kind, iw), oldIP, newIP).err.None?
    ensures var c' := Step(c, InstanceTarget(kind, iw), oldIP, newIP).cloud;
            && Holds(c', InstanceTarget(kind, iw), oldIP, newIP)
            && (Holds(c, u, oldIP, newIP) ==> Holds(c', u, oldIP, newIP))
  {
    var (c1, got) := DescribeGroupList(c, kind, iw);
    var list := UpdatedIPList(got.value, oldIP, newIP);
    var c' := ModifyGroupList(c1, kind, list, iw).0;
    var key := (kind, iw.instanceId);
    assert c'.rules == c.rules && c'.acls == c.acls;
    assert c'.groups == c.groups[key := SetGroup(GroupsOf(c, kind, iw.instanceId), iw.whitelistName, list)];
    UpdatedIsReconciled(got.value, oldIP, newIP);
    if u.InstanceTarget? && (u.kind, u.iw.instanceId) == key && u.iw.whitelistName != iw.whitelistName {
      FindAfterSetOther(GroupsOf(c, kind, iw.instanceId), iw.whitelistName, list, u.iw.whitelistName);
    }
  }

  /** A successful CLB step is a describe followed by a successful rewrite
      of the updated list. */
  lemma AclStepUnfold(c: Cloud, lbw: Config.LoadBalancerWhitelist, oldIP: string, newIP: string)
    requires Step(c, AclTarget(lbw), oldIP, newIP).err.None?
    ensures var list := UpdatedIPList(AclList(AclOf(c, lbw.aclId)), oldIP, newIP);
            var rep := ReplaceAclEntries(DescribeAclList(c, lbw).0, list, lbw);
            rep.1.None? && Step(c, AclTarget(lbw), oldIP, newIP).cloud == rep.0
  {
  }

  /** A target's state depends only on its own part of the provider. */
  lemma HoldsFrame(c: Cloud, c': Cloud, u: Target, oldIP: string, newIP: string)
    requires c'.rules == c.rules && c'.groups == c.groups
    requires u.AclTarget? ==> AclOf(c', u.lbw.aclId) == AclOf(c, u.lbw.aclId)
    ensures Holds(c, u, oldIP, newIP) ==> Holds(c', u, oldIP, newIP)
  {
  }

  lemma AclKeeps(c: Cloud, lbw: Config.LoadBalancerWhitelist, u: Target, oldIP: string, newIP: string)
    requires Comma !in newIP && Trimmed(newIP)
    requires Step(c, AclTarget(lbw), oldIP, newIP).err.None?
    ensures var c' := Step(c, AclTarget(lbw), oldIP, newIP).cloud;
            && Holds(c', AclTarget(lbw), oldIP, newIP)
            && (Holds(c, u, oldIP, newIP) ==> Holds(c', u, oldIP, newIP))
  {
    var c1 := DescribeAclList(c, lbw).0;
    var list := UpdatedIPList(AclList(AclOf(c, lbw.aclId)), oldIP, newIP);
    AclStepUnfold(c, lbw, oldIP, newIP);
    var c' := ReplaceAclEntries(c1, list, lbw).0;
    ReplaceAclContents(c1, list, lbw);
    AclListMembers(list);
    UpdatedIsReconciled(AclList(AclOf(c, lbw.aclId)), oldIP, newIP);
    if !(u.AclTarget? && u.lbw.aclId == lbw.aclId) {
      HoldsFrame(c, c', u, oldIP, newIP);
    }
  }

  /** A successful step that is not a revoke leaves its target updated and
      keeps every other target that was. */
  lemma StepKeeps(c: Cloud, t: Target, u: Target, oldIP: string, newIP: string)
    requires !t.RevokeTarget?
    requires Comma !in newIP && Trimmed(newIP)
    requires Step(c, t, oldIP, newIP).err.None?
    ensures var c' := Step(c, t, oldIP, newIP).cloud;
            && Holds(c', t, oldIP, newIP)
            && (Holds(c, u, oldIP, newIP) ==> Holds(c', u, oldIP, newIP))
  {
    match t
    case AuthorizeTarget(sg) => AuthorizeKeeps(c, sg, u, oldIP, newIP);
    case InstanceTarget(kind, iw) => InstanceKeeps(c, kind, iw, u, oldIP, newIP);
    case AclTarget(lbw) => AclKeeps(c, lbw, u, oldIP, newIP);
  }

  /** A successful run without revokes keeps every target that was updated. */
  lemma {:induction false} EachKeeps(c: Cloud, ts: seq<Target>, u: Target, oldIP: string, newIP: string)
    requires forall k :: 0 <= k < |ts| ==> !ts[k].RevokeTarget?
    requires Comma !in newIP && Trimmed(newIP)
    requires Each(c, ts, oldIP, newIP).err.None?
    requires Holds(c, u, oldIP, newIP)
    ensures Holds(Each(c, ts, oldIP, newIP).cloud, u, oldIP, newIP)
    decreases |ts|
  {
    if ts != [] {
      StepKeeps(c, ts[0], u, oldIP, newIP);
      EachKeeps(Step(c, ts[0], oldIP, newIP).cloud, ts[1..], u, oldIP, newIP);
    }
  }

  /** After a successful run without revokes every target is updated. */
  lemma {:induction false} EachEstablishes(c: Cloud, ts: seq<Target>, oldIP: string, newIP: string)
    requires forall k :: 0 <= k < |ts| ==> !ts[k].RevokeTarget?
    requires Comma !in newIP && Trimmed(newIP)
    requires Each(c, ts, oldIP, newIP).err.None?
    ensures forall k :: 0 <= k < |ts| ==> Holds(Each(c, ts, oldIP, newIP).cloud, ts[k], oldIP, newIP)
    decreases |ts|
  {
    if ts != [] {
      var c1 := Step(c, ts[0], oldIP, newIP).cloud;
      StepKeeps(c, ts[0], ts[0], oldIP, newIP);
      EachKeeps(c1, ts[1..], ts[0], oldIP, newIP);
      EachEstablishes(c1, ts[1..], oldIP, newIP);
      forall k | 1 <= k < |ts|
        ensures Holds(Each(c, ts, oldIP, newIP).cloud, ts[k], oldIP, newIP)
      {
        assert ts[k] == ts[1..][k - 1];
      }
    }
  }

  /** After a successful ECS update every configured group has the rule for
      the new IP. */
  lemma EcsUpdated(c: Cloud, ecs: Config.Ecs, oldIP: string, newIP: string)
    requires ecs.enabled && newIP != ""
    requires Comma !in newIP && Trimmed(newIP)
    requires Each(c, EcsTargets(ecs, oldIP, newIP), oldIP, newIP).err.None?
    ensures forall sg :: sg in ecs.securityGroups ==>
              SecurityRule(newIP, sg) in RulesOf(Each(c, EcsTargets(ecs, oldIP, newIP), oldIP, newIP).cloud, sg.securityGroupId)
  {
    var sgs := ecs.securityGroups;
    var revokes: seq<Target> := if oldIP != "" then Revokes(sgs) else [];
    var auths := Authorizes(sgs);
    EachAppend(c, revokes, auths, oldIP, newIP);
    var mid := Each(c, revokes, oldIP, newIP).cloud;
    EachEstablishes(mid, auths, oldIP, newIP);
    forall sg | sg in sgs
      ensures SecurityRule(newIP, sg) in RulesOf(Each(c, EcsTargets(ecs, oldIP, newIP), oldIP, newIP).cloud, sg.securityGroupId)
    {
      var k :| 0 <= k < |sgs| && sgs[k] == sg;
      assert Holds(Each(mid, auths, oldIP, newIP).cloud, auths[k], oldIP, newIP);
    }
  }

  /** After a successful RDS or Redis update every configured whitelist group
      exists and holds the new IP and not a different old one. */
  lemma InstancesUpdated(c: Cloud, kind: Kind, db: Config.Database, oldIP: string, newIP: string)
    requires db.enabled
    requires Comma !in newIP && Trimmed(newIP)
    requires Each(c, InstanceTargets(kind, db), oldIP, newIP).err.None?
    ensures forall iw :: iw in db.instanceWhitelists ==>
              var found := FindGroup(GroupsOf(Each(c, InstanceTargets(kind, db), oldIP, newIP).cloud, kind, iw.instanceId), iw.whitelistName);
              found.Some? && Reconciled(found.value, oldIP, newIP)
  {
    var ts := InstanceTargets(kind, db);
    EachEstablishes(c, ts, oldIP, newIP);
    forall iw | iw in db.instanceWhitelists
      ensures var found := FindGroup(GroupsOf(Each(c, ts, oldIP, newIP).cloud, kind, iw.instanceId), iw.whitelistName);
              found.Some? && Reconciled(found.value, oldIP, newIP)
    {
      var k :| 0 <= k < |db.instanceWhitelists| && db.instanceWhitelists[k] == iw;
      assert Holds(Each(c, ts, oldIP, newIP).cloud, ts[k], oldIP, newIP);
    }
  }

  /** After a successful CLB update every configured access control list
      stands for a whitelist holding the new IP and not a different old one. */
  lemma AclsUpdated(c: Cloud, clb: Config.Clb, oldIP: string, newIP: string)
    requires clb.enabled
    requires Comma !in newIP && Trimmed(newIP)
    requires Each(c, AclTargets(clb), oldIP, newIP).err.None?
    ensures forall lbw :: lbw in clb.loadBalancerWhitelists ==>
              Reconciled(AclList(AclOf(Each(c, AclTargets(clb), oldIP, newIP).cloud, lbw.aclId)), oldIP, newIP)
  {
    var ts := AclTargets(clb);
    EachEstablishes(c, ts, oldIP, newIP);
    forall lbw | lbw in clb.loadBalancerWhitelists
      ensures Reconciled(AclList(AclOf(Each(c, ts, oldIP, newIP).cloud, lbw.aclId)), oldIP, newIP)
    {
      var k :| 0 <= k < |clb.loadBalancerWhitelists| && clb.loadBalancerWhitelists[k] == lbw;
      assert Holds(Each(c, ts, oldIP, newIP).cloud, ts[k], oldIP, newIP);
    }
  }

  // ---------------------------------------------------------------------
  // RDS and Redis: the calls of one whitelist group
  // ---------------------------------------------------------------------

  /** A group that is not found ends the update with a "not found" error
      after the describe call alone: no modify call is made. */
  lemma GroupNotFoundMakesNoModify(c: Cloud, kind: Kind, iw: Config.InstanceWhitelist, oldIP: string, newIP: string)
    requires NextFault(c).None?
    requires FindGroup(GroupsOf(c, kind, iw.instanceId), iw.whitelistName).None?
    ensures var r := Step(c, InstanceTarget(kind, iw), oldIP, newIP);
            && r.cloud.trace == c.trace + [DescribeSecurityIps(kind, iw.instanceId)]
            && r.err == Some(UpdateError(Fetch, kind, iw.instanceId, GroupNotFound(iw.whitelistName, iw.instanceId)))
  {
  }

  /** A successful whitelist group update is get, then set of the updated
      list into the same group. */
  lemma InstanceStepCalls(c: Cloud, kind: Kind, iw: Config.InstanceWhitelist, oldIP: string, newIP: string)
    requires Step(c, InstanceTarget(kind, iw), oldIP, newIP).err.None?
    ensures var found := FindGroup(GroupsOf(c, kind, iw.instanceId), iw.whitelistName);
            && found.Some?
            && Step(c, InstanceTarget(kind, iw), oldIP, newIP).cloud.trace ==
                 c.trace + [DescribeSecurityIps(kind, iw.instanceId),
                            ModifySecurityIps(kind, iw.instanceId, iw.whitelistName, UpdatedIPList(found.value, oldIP, newIP))]
  {
  }
}
