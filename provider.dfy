/** The Alibaba Cloud side of the whitelist manager, seen as an abstract
    provider: the ECS security group rules, the RDS and Redis whitelist groups
    and the CLB access control lists the client reads and writes, together with
    the trace of every API call made so far and an oracle deciding which calls
    fail. */
module Provider {
  import opened Wrappers

  /** The four resource kinds the manager keeps in step. */
  datatype Kind = Ecs | Rds | Redis | Clb

  /** An ingress rule of an ECS security group. */
  datatype Rule = Rule(ipProtocol: string, portRange: string, sourceCidrIp: string, priority: int)

  /** A named whitelist group of an RDS or Redis instance, holding a
      comma-separated IP list. */
  datatype IpGroup = IpGroup(name: string, ips: string)

  /** An entry of a CLB access control list. */
  datatype AclEntry = AclEntry(entry: string, comment: string)

  /** The provider API calls the client makes. */
  datatype Call =
    | RevokeSecurityGroup(groupId: string, rule: Rule)
    | AuthorizeSecurityGroup(groupId: string, rule: Rule)
    | DescribeSecurityIps(kind: Kind, instanceId: string)
    | ModifySecurityIps(kind: Kind, instanceId: string, groupName: string, ips: string)
    | DescribeAccessControlList(aclId: string)
    | RemoveAccessControlListEntry(aclId: string, entries: seq<AclEntry>)
    | AddAccessControlListEntry(aclId: string, entries: seq<AclEntry>)

  /** The provider state. `faults` is the failure oracle: the call made at
      position `k` of the trace fails with message `faults[k]` when `k` is a key. */
  datatype Cloud = Cloud(
    rules: map<string, set<Rule>>,
    groups: map<(Kind, string), seq<IpGroup>>,
    acls: map<string, seq<AclEntry>>,
    trace: seq<Call>,
    faults: map<nat, string>)

  /** The rules of a security group; an unknown group has none. */
  function RulesOf(c: Cloud, groupId: string): set<Rule> {
    if groupId in c.rules then c.rules[groupId] else {}
  }

  /** The whitelist groups of an instance; an unknown instance has none. */
  function GroupsOf(c: Cloud, kind: Kind, instanceId: string): seq<IpGroup> {
    if (kind, instanceId) in c.groups then c.groups[(kind, instanceId)] else []
  }

  /** The entries of an access control list; an unknown list is empty. */
  function AclOf(c: Cloud, aclId: string): seq<AclEntry> {
    if aclId in c.acls then c.acls[aclId] else []
  }

  /** The outcome the oracle gives the next call. */
  function NextFault(c: Cloud): Option<string> {
    if |c.trace| in c.faults then Some(c.faults[|c.trace|]) else None
  }

  /** `groups` with the list of the first group called `name` replaced by
      `ips`, or with a new group appended when none is called `name`. */
  function SetGroup(groups: seq<IpGroup>, name: string, ips: string): (r: seq<IpGroup>)
    ensures |r| == |groups| || |r| == |groups| + 1
    ensures forall k :: 0 <= k < |groups| && groups[k].name != name ==> r[k] == groups[k]
  {
    if groups == [] then [IpGroup(name, ips)]
    else if groups[0].name == name then [IpGroup(name, ips)] + groups[1..]
    else [groups[0]] + SetGroup(groups[1..], name, ips)
  }

  /** `entries` without those listed in `gone`. */
  function RemoveEntries(entries: seq<AclEntry>, gone: seq<AclEntry>): (r: seq<AclEntry>)
    ensures forall k :: 0 <= k < |r| ==> r[k] in entries && r[k] !in gone
    ensures forall e :: e in entries && e !in gone ==> e in r
  {
    if entries == [] then []
    else if entries[0] in gone then RemoveEntries(entries[1..], gone)
    else [entries[0]] + RemoveEntries(entries[1..], gone)
  }

  /** The effect a successful call has on the resources. Describe calls only
      read. */
  function Apply(c: Cloud, call: Call): Cloud {
    match call
    case RevokeSecurityGroup(id, rule) => c.(rules := c.rules[id := RulesOf(c, id) - {rule}])
    case AuthorizeSecurityGroup(id, rule) => c.(rules := c.rules[id := RulesOf(c, id) + {rule}])
    case DescribeSecurityIps(_, _) => c
    case ModifySecurityIps(kind, id, name, ips) =>
      c.(groups := c.groups[(kind, id) := SetGroup(GroupsOf(c, kind, id), name, ips)])
    case DescribeAccessControlList(_) => c
    case RemoveAccessControlListEntry(id, es) => c.(acls := c.acls[id := RemoveEntries(AclOf(c, id), es)])
    case AddAccessControlListEntry(id, es) => c.(acls := c.acls[id := AclOf(c, id) + es])
  }

  /** Makes one API call: the call is recorded; it either fails as the oracle
      says, changing nothing else, or takes its effect. */
  function Perform(c: Cloud, call: Call): (r: (Cloud, Option<string>))
    ensures r.0.trace == c.trace + [call] && r.0.faults == c.faults
    ensures r.1 == NextFault(c)
    ensures r.1.Some? ==> r.0 == c.(trace := c.trace + [call])
  {
    var recorded := c.(trace := c.trace + [call]);
    match NextFault(c)
    case Some(msg) => (recorded, Some(msg))
    case None => (Apply(recorded, call), None)
  }

  /** Removing every entry of a list leaves it empty. */
  lemma {:induction false} RemoveAll(entries: seq<AclEntry>)
    ensures RemoveEntries(entries, entries) == []
  {
    RemoveSubset(entries, entries);
  }

  lemma {:induction false} RemoveSubset(entries: seq<AclEntry>, gone: seq<AclEntry>)
    requires forall k :: 0 <= k < |entries| ==> entries[k] in gone
    ensures RemoveEntries(entries, gone) == []
  {
    if entries != [] {
      RemoveSubset(entries[1..], gone);
    }
  }

  /** A successful ACL removal followed by an addition replaces the list. */
  lemma ReplaceAcl(c: Cloud, id: string, es: seq<AclEntry>)
    ensures AclOf(Apply(Apply(c, RemoveAccessControlListEntry(id, AclOf(c, id))), AddAccessControlListEntry(id, es)), id) == es
  {
    RemoveAll(AclOf(c, id));
  }
}
