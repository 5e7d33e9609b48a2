/** The Aliyun client object: it holds the account's configuration and a
    connection to the provider, and its methods make the calls one by one,
    each updating the provider state and the call trace in place. Every
    method is proved to end in the state, and with the error, that the
    functions of module `Aliyun` describe. */
module AliyunClient {
  import opened Wrappers
  import opened Strings
  import opened Whitelist
  import opened Provider
  import opened Aliyun
  import Config

  /** The scan of a describe response for the first group with the configured
      name. */
  method LookupGroup(groups: seq<IpGroup>, name: string) returns (r: Option<string>)
    ensures r == FindGroup(groups, name)
  {
    var i := 0;
    while i < |groups|
      invariant 0 <= i <= |groups|
      invariant FindGroup(groups, name) == FindGroup(groups[i..], name)
    {
      if groups[i].name == name {
        return Some(groups[i].ips);
      }
      assert groups[i..][1..] == groups[i + 1..];
      i := i + 1;
    }
    return None;
  }

  /** The loop of `getCLBWhitelist` that strips the host mask off every entry. */
  method StripAll(entries: seq<AclEntry>) returns (ips: seq<string>)
    ensures ips == StripMasks(entries)
  {
    ips := [];
    var i := 0;
    while i < |entries|
      invariant 0 <= i <= |entries| && |ips| == i
      invariant forall k :: 0 <= k < i ==> ips[k] == TrimSuffix(entries[k].entry, HostMask)
    {
      ips := ips + [TrimSuffix(entries[i].entry, HostMask)];
      i := i + 1;
    }
  }

  /** The loop of `setCLBWhitelist` that builds one entry per trimmed
      non-empty piece. */
  method BuildEntries(pieces: seq<string>) returns (adds: seq<AclEntry>)
    ensures adds == EntriesToAdd(pieces)
  {
    adds := [];
    var i := 0;
    while i < |pieces|
      invariant 0 <= i <= |pieces|
      invariant adds == EntriesToAdd(pieces[..i])
    {
      assert pieces[..i + 1] == pieces[..i] + [pieces[i]];
      EntriesToAddSnoc(pieces[..i], pieces[i]);
      var ip := TrimSpace(pieces[i]);
      if ip != "" {
        adds := adds + [AclEntry(ip + HostMask, AutoComment)];
      }
      i := i + 1;
    }
    assert pieces[..i] == pieces;
  }

  /** The loop of `setCLBWhitelist` that lists the current entries for
      removal. */
  method CopyEntries(entries: seq<AclEntry>) returns (gone: seq<AclEntry>)
    ensures gone == entries
  {
    gone := [];
    var i := 0;
    while i < |entries|
      invariant 0 <= i <= |entries| && |gone| == i
      invariant forall k :: 0 <= k < i ==> gone[k] == entries[k]
    {
      gone := gone + [AclEntry(entries[i].entry, entries[i].comment)];
      i := i + 1;
    }
  }

  class Client {
    const config: Config.Aliyun
    var cloud: Cloud

    /** `NewClient`: a client for one account's configuration. */
    constructor (config: Config.Aliyun, cloud: Cloud)
      ensures this.config == config && this.cloud == cloud
    {
      this.config := config;
      this.cloud := cloud;
    }

    /** Makes one call on the provider and gives back its error, if any. */
    method Call(call: Call) returns (err: Option<string>)
      modifies this
      ensures (cloud, err) == Perform(old(cloud), call)
    {
      var (c1, e) := Perform(cloud, call);
      cloud := c1;
      err := e;
    }

    method RemoveIPFromECSSecurityGroup(ip: string, sg: Config.SecurityGroup) returns (err: Option<string>)
      modifies this
      ensures (cloud, err) == RevokeRule(old(cloud), ip, sg)
    {
      var e := Call(RevokeSecurityGroup(sg.securityGroupId, SecurityRule(ip, sg)));
      if e.Some? && Contains(e.value, RuleNotFound) {
        return None;
      }
      return e;
    }

    method AddIPToECSSecurityGroup(ip: string, sg: Config.SecurityGroup) returns (err: Option<string>)
      modifies this
      ensures (cloud, err) == AuthorizeRule(old(cloud), ip, sg)
    {
      err := Call(AuthorizeSecurityGroup(sg.securityGroupId, SecurityRule(ip, sg)));
    }

    method UpdateECSWhitelist(oldIP: string, newIP: string) returns (err: Option<UpdateError>)
      modifies this
      ensures Outcome(cloud, err) == Each(old(cloud), EcsTargets(config.ecs, oldIP, newIP), oldIP, newIP)
    {
      if !config.ecs.enabled {
        return None;
      }
      var sgs := config.ecs.securityGroups;
      ghost var revokes: seq<Target> := if oldIP != "" then Revokes(sgs) else [];
      ghost var auths: seq<Target> := if newIP != "" then Authorizes(sgs) else [];
      EachAppend(cloud, revokes, auths, oldIP, newIP);
      err := None;
      if oldIP != "" {
        err := RevokeFromAll(oldIP, newIP, sgs);
        if err.Some? {
          return;
        }
      }
      assert Each(old(cloud), revokes, oldIP, newIP) == Outcome(cloud, None);
      if newIP != "" {
        err := AuthorizeOnAll(oldIP, newIP, sgs);
      }
    }

    /** The first loop of `UpdateECSWhitelist`: the old IP is revoked from
        every group in turn, stopping at the first failure. */
    method RevokeFromAll(oldIP: string, newIP: string, sgs: seq<Config.SecurityGroup>) returns (err: Option<UpdateError>)
      modifies this
      ensures Outcome(cloud, err) == Each(old(cloud), Revokes(sgs), oldIP, newIP)
    {
      ghost var ts := Revokes(sgs);
      var i := 0;
      while i < |sgs|
        invariant 0 <= i <= |sgs|
        invariant Each(old(cloud), ts, oldIP, newIP) == Each(cloud, ts[i..], oldIP, newIP)
      {
        var e := RemoveIPFromECSSecurityGroup(oldIP, sgs[i]);
        if e.Some? {
          return Some(UpdateError(RemoveOld, Ecs, sgs[i].securityGroupId, ProviderError(e.value)));
        }
        assert ts[i..][1..] == ts[i + 1..];
        i := i + 1;
      }
      return None;
    }

    /** The second loop of `UpdateECSWhitelist`: the new IP is authorized on
        every group in turn, stopping at the first failure. */
    method AuthorizeOnAll(oldIP: string, newIP: string, sgs: seq<Config.SecurityGroup>) returns (err: Option<UpdateError>)
      modifies this
      ensures Outcome(cloud, err) == Each(old(cloud), Authorizes(sgs), oldIP, newIP)
    {
      ghost var ts := Authorizes(sgs);
      var i := 0;
      while i < |sgs|
        invariant 0 <= i <= |sgs|
        invariant Each(old(cloud), ts, oldIP, newIP) == Each(cloud, ts[i..], oldIP, newIP)
      {
        var e := AddIPToECSSecurityGroup(newIP, sgs[i]);
        if e.Some? {
          return Some(UpdateError(AddNew, Ecs, sgs[i].securityGroupId, ProviderError(e.value)));
        }
        assert ts[i..][1..] == ts[i + 1..];
        i := i + 1;
      }
      return None;
    }

    /** `getRDSWhitelist` and `getRedisWhitelist`: describe, then look for the
        configured group. */
    method GetInstanceWhitelist(kind: Kind, iw: Config.InstanceWhitelist) returns (r: Result<string, Cause>)
      modifies this
      ensures (cloud, r) == DescribeGroupList(old(cloud), kind, iw)
    {
      var groups := GroupsOf(cloud, kind, iw.instanceId);
      var e := Call(DescribeSecurityIps(kind, iw.instanceId));
      if e.Some? {
        return Failure(ProviderError(e.value));
      }
      var found := LookupGroup(groups, iw.whitelistName);
      if found.None? {
        return Failure(GroupNotFound(iw.whitelistName, iw.instanceId));
      }
      return Success(found.value);
    }

    method GetRDSWhitelist(iw: Config.InstanceWhitelist) returns (r: Result<string, Cause>)
      modifies this
      ensures (cloud, r) == DescribeGroupList(old(cloud), Rds, iw)
    {
      r := GetInstanceWhitelist(Rds, iw);
    }

    method GetRedisWhitelist(iw: Config.InstanceWhitelist) returns (r: Result<string, Cause>)
      modifies this
      ensures (cloud, r) == DescribeGroupList(old(cloud), Redis, iw)
    {
      r := GetInstanceWhitelist(Redis, iw);
    }

    method SetRDSWhitelist(list: string, iw: Config.InstanceWhitelist) returns (err: Option<string>)
      modifies this
      ensures (cloud, err) == ModifyGroupList(old(cloud), Rds, list, iw)
    {
      err := Call(ModifySecurityIps(Rds, iw.instanceId, iw.whitelistName, list));
    }

    method SetRedisWhitelist(list: string, iw: Config.InstanceWhitelist) returns (err: Option<string>)
      modifies this
      ensures (cloud, err) == ModifyGroupList(old(cloud), Redis, list, iw)
    {
      err := Call(ModifySecurityIps(Redis, iw.instanceId, iw.whitelistName, list));
    }

    /** One whitelist group of `UpdateRDSWhitelist` / `UpdateRedisWhitelist`:
        get, update the list, set. */
    method UpdateInstance(kind: Kind, iw: Config.InstanceWhitelist, oldIP: string, newIP: string) returns (err: Option<UpdateError>)
      modifies this
      ensures Outcome(cloud, err) == Step(old(cloud), InstanceTarget(kind, iw), oldIP, newIP)
    {
      var got := GetInstanceWhitelist(kind, iw);
      if got.Failure? {
        return Some(UpdateError(Fetch, kind, iw.instanceId, got.error));
      }
      var updated := UpdateIPList(got.value, oldIP, newIP);
      var e := Call(ModifySecurityIps(kind, iw.instanceId, iw.whitelistName, updated));
      if e.Some? {
        return Some(UpdateError(Store, kind, iw.instanceId, ProviderError(e.value)));
      }
      return None;
    }

    /** The loop shared by `UpdateRDSWhitelist` and `UpdateRedisWhitelist`. */
    method UpdateInstances(kind: Kind, db: Config.Database, oldIP: string, newIP: string) returns (err: Option<UpdateError>)
      modifies this
      ensures Outcome(cloud, err) == Each(old(cloud), InstanceTargets(kind, db), oldIP, newIP)
    {
      if !db.enabled {
        return None;
      }
      ghost var ts := InstanceTargets(kind, db);
      var iws := db.instanceWhitelists;
      var i := 0;
      while i < |iws|
        invariant 0 <= i <= |iws|
        invariant Each(old(cloud), ts, oldIP, newIP) == Each(cloud, ts[i..], oldIP, newIP)
      {
        err := UpdateInstance(kind, iws[i], oldIP, newIP);
        if err.Some? {
          return;
        }
        assert ts[i..][1..] == ts[i + 1..];
        i := i + 1;
      }
      return None;
    }

    method UpdateRDSWhitelist(oldIP: string, newIP: string) returns (err: Option<UpdateError>)
      modifies this
      ensures Outcome(cloud, err) == Each(old(cloud), InstanceTargets(Rds, config.rds), oldIP, newIP)
    {
      err := UpdateInstances(Rds, config.rds, oldIP, newIP);
    }

    method UpdateRedisWhitelist(oldIP: string, newIP: string) returns (err: Option<UpdateError>)
      modifies this
      ensures Outcome(cloud, err) == Each(old(cloud), InstanceTargets(Redis, config.redis), oldIP, newIP)
    {
      err := UpdateInstances(Redis, config.redis, oldIP, newIP);
    }

    method GetCLBWhitelist(lbw: Config.LoadBalancerWhitelist) returns (r: Result<string, string>)
      modifies this
      ensures (cloud, r) == DescribeAclList(old(cloud), lbw)
    {
      var entries := AclOf(cloud, lbw.aclId);
      var e := Call(DescribeAccessControlList(lbw.aclId));
      if e.Some? {
        return Failure(e.value);
      }
      var ips := StripAll(entries);
      return Success(Join(ips, Comma));
    }

    method SetCLBWhitelist(list: string, lbw: Config.LoadBalancerWhitelist) returns (err: Option<string>)
      modifies this
      ensures (cloud, err) == ReplaceAclEntries(old(cloud), list, lbw)
    {
      var id := lbw.aclId;
      var current := AclOf(cloud, id);
      err := Call(DescribeAccessControlList(id));
      if err.Some? {
        return;
      }
      if |current| > 0 {
        var gone := CopyEntries(current);
        err := Call(RemoveAccessControlListEntry(id, gone));
        if err.Some? {
          return;
        }
      }
      if list != "" {
        var adds := BuildEntries(Split(list, Comma));
        if |adds| > 0 {
          err := Call(AddAccessControlListEntry(id, adds));
        }
      }
    }

    /** One access control list of `UpdateCLBWhitelist`: get, update the
        list, set. */
    method UpdateAcl(lbw: Config.LoadBalancerWhitelist, oldIP: string, newIP: string) returns (err: Option<UpdateError>)
      modifies this
      ensures Outcome(cloud, err) == Step(old(cloud), AclTarget(lbw), oldIP, newIP)
    {
      var got := GetCLBWhitelist(lbw);
      if got.Failure? {
        return Some(UpdateError(Fetch, Clb, lbw.aclId, ProviderError(got.error)));
      }
      var updated := UpdateIPList(got.value, oldIP, newIP);
      var e := SetCLBWhitelist(updated, lbw);
      if e.Some? {
        return Some(UpdateError(Store, Clb, lbw.aclId, ProviderError(e.value)));
      }
      return None;
    }

    method UpdateCLBWhitelist(oldIP: string, newIP: string) returns (err: Option<UpdateError>)
      modifies this
      ensures Outcome(cloud, err) == Each(old(cloud), AclTargets(config.clb), oldIP, newIP)
    {
      if !config.clb.enabled {
        return None;
      }
      ghost var ts := AclTargets(config.clb);
      var lbws := config.clb.loadBalancerWhitelists;
      var i := 0;
      while i < |lbws|
        invariant 0 <= i <= |lbws|
        invariant Each(old(cloud), ts, oldIP, newIP) == Each(cloud, ts[i..], oldIP, newIP)
      {
        err := UpdateAcl(lbws[i], oldIP, newIP);
        if err.Some? {
          return;
        }
        assert ts[i..][1..] == ts[i + 1..];
        i := i + 1;
      }
      return None;
    }
  }
}
