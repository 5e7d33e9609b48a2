# cloud-whitelist-manager, modelled in Dafny

cloud-whitelist-manager keeps Aliyun access rules in step with the public IP of
the machine it runs on. Each round it resolves the public IP from one
configured source: an HTTP endpoint, a shell command or a network interface.
When the IP differs from the one it last saw, it remembers the previous IP. It
then pushes the change to every configured account. For each account it does
four kinds of update, each only when that kind is enabled:

- ECS security groups: the old IP's rule is revoked and the new IP's rule is
  authorized.
- RDS and Redis whitelist groups: each group is read, passed through
  `updateIPList`, and written back.
- CLB access control lists: the same read, update and write as RDS and Redis.

A failing kind is logged, and the round carries on with the next kind.

The model has nine modules:

- `Wrappers` holds `Option` and `Result`.
- `Strings` holds the parts of Go's `strings` package the program relies on:
  `Split`, `Join`, `TrimSpace` (with Unicode white space), `TrimSuffix` and
  `Contains`. It also proves their laws.
- `Config` holds the configuration records, `Validate`, `GetAliyun` and
  `GetInterval`.
- `Whitelist` holds `updateIPList`. `UpdatedIPList` is its value,
  `UpdateIPList` is the loop version proved equal to it, and the module proves
  what the written list contains.
- `Provider` is an abstract Aliyun. It holds:
  - the security group rules;
  - the whitelist groups of RDS and Redis instances;
  - the entries of access control lists;
  - a trace of every call made;
  - a fault table that makes chosen calls fail.
- `Aliyun` specifies every client operation as a function on the provider
  state:
  - port normalisation and the revoke error filter;
  - get and set for RDS, Redis and CLB;
  - the four update loops, each as `Each` over a list of `Target`s.

  It also proves what those operations leave behind and which calls they make.
- `AliyunClient` has the `Client` class. Its `cloud` field is updated in place
  by one method per Go method, and each method is proved to equal the
  matching `Aliyun` function.
- `Ip` holds the IP sources and `GetPublicIP` over an explicit environment.
  The environment gives HTTP replies, command outputs, the interface list and
  the address parser `net.ParseIP` as an uninterpreted predicate.
- `Driver` has `updateIP`, as the `State` class with `lastIP` and `currentIP`.
  It also proves what an account's round guarantees when every kind reported
  success.

Go map iteration in `updateIPList` has no fixed order. The model emits the
keys in the order they were first inserted, which is one order Go may
produce. Every property about the written list is stated over its set of
members, plus the absence of duplicates and empty entries, so none depends on
that order.

A provider call fails exactly when the fault table has an entry for its
position in the trace. A failed call is recorded in the trace but changes
nothing else.

The interface source has a quirk, and the model keeps it. An address that is
neither an `*net.IPNet` nor an `*net.IPAddr` leaves `ip` nil. A nil IP is not
loopback and has no 4-byte form, so with `ipv6: true` the source answers the
text `"<nil>"`. `Ip.NilAddressAnswersIpv6` states this.

## Model

| member | source | states |
|---|---|---|
| Strings.TrimSpace | internal/ip/ip.go:73 | the result is no longer than the input, and it neither starts nor ends with white space |
| Strings.TrimLeftIsSuffix | internal/ip/ip.go:73 | trimming the front leaves a suffix of the input |
| Strings.TrimLeftDropsSpace | internal/ip/ip.go:73 | every character dropped from the front is white space |
| Strings.TrimRightIsPrefix | internal/ip/ip.go:73 | trimming the back leaves a prefix of the input |
| Strings.TrimRightDropsSpace | internal/ip/ip.go:73 | every character dropped from the back is white space |
| Strings.TrimSpaceIsSlice | internal/aliyun/aliyun.go:413 | the trimmed string is a slice `s[i..j]` of the input, everything before `i` and from `j` on is white space, and it holds only characters of the input |
| Strings.TrimmedIsFixpoint | internal/aliyun/aliyun.go:382 | a string is unchanged by trimming exactly when it has no white space at either end |
| Strings.TrimSpaceIdempotent | internal/ip/ip.go:92 | trimming twice is trimming once |
| Strings.TrimSuffix | internal/aliyun/aliyun.go:330 | with the suffix present, the result plus the suffix is the input; otherwise the input is unchanged |
| Strings.TrimSuffixOfAppended | internal/aliyun/aliyun.go:330 | cutting "/32" off an address with "/32" appended gives the address back |
| Strings.ContainsAt | internal/aliyun/aliyun.go:107 | `Contains` holds exactly when the substring occurs at some index |
| Strings.Split | internal/aliyun/aliyun.go:408 | the result has at least one piece, as Go's `Split("")` gives `[""]`, and no piece holds the separator |
| Strings.JoinSplit | internal/aliyun/aliyun.go:379 | joining the pieces of a split with the same separator gives the input back |
| Strings.SplitPiece | internal/aliyun/aliyun.go:408 | splitting a separator-free piece, then the separator, then the rest gives the piece followed by the rest's pieces |
| Strings.SplitJoin | internal/aliyun/aliyun.go:435 | splitting a join of separator-free pieces gives the pieces back |
| Whitelist.Collect | internal/aliyun/aliyun.go:408-417 | the map keys built from the pieces are distinct, non-empty and trimmed |
| Whitelist.CollectSnoc | internal/aliyun/aliyun.go:411-416 | one more piece adds its trimmed text as a key, unless it is empty or already a key |
| Whitelist.CollectCommaFree | internal/aliyun/aliyun.go:408-417 | the keys of split pieces hold no comma |
| Whitelist.CollectMembers | internal/aliyun/aliyun.go:411-417 | the keys are exactly the trimmed non-empty pieces |
| Whitelist.CollectKeys | internal/aliyun/aliyun.go:408-417 | the loop that fills the map yields `Collect` of the pieces |
| Whitelist.Without | internal/aliyun/aliyun.go:420-422 | deleting a key removes exactly that key, keeps the rest distinct and adds nothing |
| Whitelist.SyncEntries | internal/aliyun/aliyun.go:419-427 | after the delete and the insert the keys are the old set minus the old IP plus the new one, each only when non-empty, with no duplicates and no empty key |
| Whitelist.UpdatedEntries | internal/aliyun/aliyun.go:406-433 | the entries to be joined are distinct and non-empty |
| Whitelist.UpdatedEntriesMembers | internal/aliyun/aliyun.go:406-433 | the entries are exactly the list's members, minus the old IP, plus the new IP |
| Whitelist.UpdatedEntriesShape | internal/aliyun/aliyun.go:412-427 | with a comma-free new IP no entry holds a comma, and with a trimmed new IP every entry is trimmed |
| Whitelist.UpdateIPList | internal/aliyun/aliyun.go:406-436 | the loops of `updateIPList` compute `UpdatedIPList` |
| Whitelist.PieceMembersOfEntries | internal/aliyun/aliyun.go:430-435 | trimmed non-empty entries are themselves the members their pieces stand for |
| Whitelist.SyncIdentity | internal/aliyun/aliyun.go:419-427 | with no old and no new IP the set of members is unchanged |
| Whitelist.SyncSameIp | internal/aliyun/aliyun.go:419-427 | with the same IP as old and new, the members are the old ones plus that IP |
| Whitelist.SyncReapplyAdd | internal/aliyun/aliyun.go:424-427 | adding the new IP again changes no member |
| Whitelist.SyncUndo | internal/aliyun/aliyun.go:419-427 | swapping back restores the members when the old IP was present and the new one was not |
| Whitelist.MembersOfUpdated | internal/aliyun/aliyun.go:406-436 | the members of the written list are the old members, minus the old IP, plus the new IP |
| Whitelist.UpdatedListWellFormed | internal/aliyun/aliyun.go:429-435 | the written list is empty, or its comma-separated pieces are distinct and non-empty |
| Whitelist.IdentityLaw | internal/aliyun/aliyun.go:419-427 | with both IPs empty the members are unchanged |
| Whitelist.SameIpLaw | internal/aliyun/aliyun.go:419-427 | with the same non-empty IP as old and new, the members are the old ones plus that IP |
| Whitelist.ReapplyLaw | internal/aliyun/aliyun.go:424-427 | adding the new IP again to a written list changes no member |
| Whitelist.UndoLaw | internal/aliyun/aliyun.go:406-436 | swapping back from new to old restores the members when the old IP was a member and the new one was not |
| Whitelist.UpdatedIsReconciled | internal/aliyun/aliyun.go:419-427 | the written list holds the new IP, when there is one, and not a different old one |
| Config.SourceProblem | internal/config/config.go:117-135 | the IP source passes exactly when its type is http, command or interface with its field set; a missing URL, command or interface name, an empty type and an unknown type each give their own error |
| Config.CredentialsProblem | internal/config/config.go:143-151 | credentials pass exactly when all three fields are set; otherwise the first empty one in the order key id, secret, region is reported |
| Config.SecurityGroupProblem | internal/config/config.go:158-168 | a security group passes exactly when it has an id, a port and a positive priority; otherwise the first failing one of these is reported with the group's index |
| Config.InstanceWhitelistProblem | internal/config/config.go:176-183 | an instance whitelist passes exactly when it has an instance id and a name; otherwise the first missing one is reported with its index |
| Config.EcsProblem | internal/config/config.go:154-169 | an enabled ECS block with no group is reported as such; otherwise the first failing group is reported |
| Config.DatabaseProblem | internal/config/config.go:172-200 | an enabled RDS or Redis block with no whitelist is reported as such; otherwise the first failing whitelist is reported |
| Config.ClbProblem | internal/config/config.go:202-211 | an enabled CLB block with no list is reported as such; otherwise the first list without an id is reported |
| Config.ResourcesProblem | internal/config/config.go:153-211 | the resource blocks pass exactly when every enabled block is valid; the problem reported is that of the first failing block in the order ECS, RDS, Redis, CLB |
| Config.AccountProblem | internal/config/config.go:139-212 | an account passes exactly when it has a name, credentials and valid resources; a missing name is reported first, then the first credential problem, then the first resource problem, always with the account's index |
| Config.LegacyProblem | internal/config/config.go:214-285 | the legacy block passes exactly when it has credentials and valid resources; the first credential problem is reported before any resource problem |
| Config.Validate | internal/config/config.go:112-289 | passes exactly when the configuration is valid; an interval at or below 0 is the first error; a bad source comes next; then the problem of the first bad account, as that account's own checks report it, or else the legacy block's problem |
| Config.LegacyIgnoredWithAccounts | internal/config/config.go:138-213 | with accounts listed, the legacy block does not affect validation |
| Config.DisabledEcsIgnored | internal/config/config.go:153-169 | a disabled ECS block's contents do not affect an account's validation, whatever the other blocks hold |
| Config.DisabledRdsIgnored | internal/config/config.go:171-184 | a disabled RDS block's contents do not affect an account's validation, whatever the other blocks hold |
| Config.DisabledRedisIgnored | internal/config/config.go:186-199 | a disabled Redis block's contents do not affect an account's validation, whatever the other blocks hold |
| Config.DisabledClbIgnored | internal/config/config.go:201-211 | a disabled CLB block's contents do not affect an account's validation, whatever the other blocks hold |
| Config.LegacyDisabledBlockIgnored | internal/config/config.go:227-285 | in the legacy block, each disabled resource block's contents, taken one at a time, do not affect validation |
| Config.DisabledBlocksIgnored | internal/config/config.go:153-211 | when all four resource blocks are disabled, their contents together do not affect an account's validation |
| Config.GetAliyun | internal/config/config.go:297-307 | the per-account configuration copies the account's credentials, region and four resource blocks |
| Config.AccountChecksAreLegacyChecks | internal/config/config.go:139-285 | an account passes exactly when it has a name and its `GetAliyun` passes the legacy checks |
| Config.GetInterval | internal/config/config.go:292-294 | the interval in nanoseconds, wrapped to 64 bits as Go's `time.Duration` multiplication does; exact and positive for intervals that fit |
| Config.FirstProblem | internal/config/config.go:158-210 | no problem exactly when every entry passes; otherwise the problem of the first entry that fails |
| Config.WrapInt64 | internal/config/config.go:292-294 | the value is in the 64-bit signed range, equal to the input modulo 2^64, and the input itself when it fits |
| Provider.Perform | internal/aliyun/aliyun.go:121 | a call is appended to the trace, fails exactly when the fault table says so, and a failed call changes nothing else |
| Provider.SetGroup | internal/aliyun/aliyun.go:214-223 | writing one group's list keeps every other group and adds at most one group |
| Provider.RemoveEntries | internal/aliyun/aliyun.go:352-370 | exactly the entries not named for removal remain |
| Provider.RemoveAll | internal/aliyun/aliyun.go:352-370 | removing every current entry leaves the list empty |
| Provider.RemoveSubset | internal/aliyun/aliyun.go:352-370 | removing a superset of the entries leaves the list empty |
| Provider.ReplaceAcl | internal/aliyun/aliyun.go:352-400 | removing the current entries and then adding new ones leaves exactly the new ones |
| Aliyun.NormalizePort | internal/aliyun/aliyun.go:100-117 | the protocol is "all" only for "-1/-1"; the range always holds a "/"; the port is kept exactly when it already held one |
| Aliyun.SinglePortRange | internal/aliyun/aliyun.go:111-113 | a single port p becomes the range p/p |
| Aliyun.NormalizePortIdempotent | internal/aliyun/aliyun.go:104-114 | normalising a normalised range changes nothing |
| Aliyun.SecurityRule | internal/aliyun/aliyun.go:95-119 | the rule's source is the IP with "/32", with the group's priority and normalised port |
| Aliyun.SourceCidrNamesIp | internal/aliyun/aliyun.go:118 | the rule's source, with "/32" cut off, is the IP again |
| Aliyun.RevokeOutcome | internal/aliyun/aliyun.go:121-130 | a revoke error is dropped exactly when it mentions `InvalidParam.SourceCidrIp`; any other error is returned unchanged |
| Aliyun.RevokeRule | internal/aliyun/aliyun.go:94-131 | one revoke call for the group's rule is made; its error is filtered; after a successful call the rule is absent |
| Aliyun.AuthorizeRule | internal/aliyun/aliyun.go:134-164 | one authorize call is made; its error is returned; after a successful call the rule is present |
| Aliyun.FindGroup | internal/aliyun/aliyun.go:204-210 | no value exactly when no group has the configured name |
| Aliyun.FindGroupFirst | internal/aliyun/aliyun.go:204-207 | a found list is that of the first group with the name |
| Aliyun.FindAfterSet | internal/aliyun/aliyun.go:214-223 | after a modify, the named group holds the list written |
| Aliyun.FindAfterSetOther | internal/aliyun/aliyun.go:214-223 | a modify leaves every other group name's list as it was |
| Aliyun.DescribeGroupList | internal/aliyun/aliyun.go:193-211 | one describe call is made; success exactly when it does not fail and the group exists, giving that group's list; otherwise "not found" or the call's error |
| Aliyun.ModifyGroupList | internal/aliyun/aliyun.go:214-224 | one modify call is made with the instance, group name and list; on success the group holds the list |
| Aliyun.StripMasks | internal/aliyun/aliyun.go:327-331 | one IP per entry, each with "/32" cut off |
| Aliyun.TrimmedPieces | internal/aliyun/aliyun.go:379-389 | the pieces kept are trimmed and non-empty |
| Aliyun.EntriesToAdd | internal/aliyun/aliyun.go:378-389 | every new entry carries the fixed comment |
| Aliyun.EntriesToAddSnoc | internal/aliyun/aliyun.go:380-388 | one more piece adds one entry, its trimmed IP with "/32", unless the piece trims to empty |
| Aliyun.StripEntriesToAdd | internal/aliyun/aliyun.go:327-331 | stripping the masks off the entries written gives the trimmed non-empty pieces |
| Aliyun.TrimmedPiecesMembers | internal/aliyun/aliyun.go:381-389 | dropping empty pieces and trimming keeps the members of the list |
| Aliyun.TrimmedPiecesCommaFree | internal/aliyun/aliyun.go:379-382 | pieces without a comma stay without one when trimmed |
| Aliyun.AclListOfEntriesToAdd | internal/aliyun/aliyun.go:317-389 | reading back the entries written for a list gives the join of its trimmed non-empty pieces |
| Aliyun.AclListMembers | internal/aliyun/aliyun.go:317-389 | reading back the entries written for a list gives the same members |
| Aliyun.DescribeAclList | internal/aliyun/aliyun.go:317-333 | one describe call is made; it fails exactly when the call fails; otherwise it gives the entries without "/32", joined by commas |
| Aliyun.ClearEntries | internal/aliyun/aliyun.go:352-370 | the remove call is made only for a non-empty list and names every entry; on success the list is empty, on failure unchanged; nothing else changes |
| Aliyun.AddEntries | internal/aliyun/aliyun.go:391-399 | the add call is made only with something to add; on success the entries are appended, on failure the list is unchanged; nothing else changes |
| Aliyun.ReplaceAclEntries | internal/aliyun/aliyun.go:336-403 | only the trace and the named access control list change |
| Aliyun.EntriesToAddEmpty | internal/aliyun/aliyun.go:373 | an empty list gives no entry to add |
| Aliyun.ReplaceAclTrace | internal/aliyun/aliyun.go:336-403 | a successful set is describe, then the remove only for a non-empty list, then the add only if there is something to add |
| Aliyun.ReplaceAclContents | internal/aliyun/aliyun.go:336-403 | after a successful set the list holds exactly one new entry per trimmed non-empty piece |
| Aliyun.ReplaceAclAddFails | internal/aliyun/aliyun.go:366-398 | when the add call fails after the remove, the access control list is left empty |
| Aliyun.FetchAfterReplace | internal/aliyun/aliyun.go:317-403 | a get after a successful set gives back the join of the trimmed non-empty pieces |
| Aliyun.Step | internal/aliyun/aliyun.go:173-187 | one target's update only appends to the trace and keeps the fault table |
| Aliyun.Each | internal/aliyun/aliyun.go:297-311 | a loop over targets only appends to the trace and keeps the fault table |
| Aliyun.EachAppend | internal/aliyun/aliyun.go:70-88 | running two target lists in turn is running their concatenation, unless the first fails |
| Aliyun.EachStopsAtFirstFailure | internal/aliyun/aliyun.go:173-187 | a failed loop failed at some target after all earlier ones succeeded, and it visited no later one |
| Aliyun.Revokes | internal/aliyun/aliyun.go:71-78 | one revoke per configured group, in order |
| Aliyun.Authorizes | internal/aliyun/aliyun.go:81-88 | one authorize per configured group, in order |
| Aliyun.FirstCalls | internal/aliyun/aliyun.go:70-88 | one first call per target |
| Aliyun.InstanceTargets | internal/aliyun/aliyun.go:167-190 | nothing when disabled; otherwise one target per configured whitelist group, in order |
| Aliyun.AclTargets | internal/aliyun/aliyun.go:291-314 | nothing when disabled; otherwise one target per configured access control list, in order |
| Aliyun.DisabledKindIsNoOp | internal/aliyun/aliyun.go:66-68 | a disabled kind makes no call and succeeds |
| Aliyun.FirstCallsSnoc | internal/aliyun/aliyun.go:72-86 | the calls of a list with one more target end with that target's call |
| Aliyun.RuleStepTrace | internal/aliyun/aliyun.go:94-164 | a revoke or authorize target makes exactly one call |
| Aliyun.RuleTargetsTrace | internal/aliyun/aliyun.go:70-88 | a successful ECS loop makes exactly one call per target, in order |
| Aliyun.RuleTargetsFailure | internal/aliyun/aliyun.go:72-86 | a failed ECS loop made the calls up to the failing group and no more; its error names that group, and the stage is remove or add |
| Aliyun.EcsCallOrder | internal/aliyun/aliyun.go:70-88 | the ECS targets are every revoke of the old IP, when there is one, then every authorize of the new IP, when there is one |
| Aliyun.AuthorizeKeeps | internal/aliyun/aliyun.go:134-164 | a successful authorize leaves its rule present and keeps every target already updated |
| Aliyun.InstanceKeeps | internal/aliyun/aliyun.go:173-187 | a successful group update leaves the group holding the new IP and not the old one, and keeps every target already updated |
| Aliyun.AclStepUnfold | internal/aliyun/aliyun.go:297-311 | a successful ACL target is a get followed by a successful set of the updated list |
| Aliyun.HoldsFrame | internal/aliyun/aliyun.go:336-403 | a target's updated state depends only on its own part of the provider |
| Aliyun.AclKeeps | internal/aliyun/aliyun.go:297-311 | a successful ACL update leaves the list holding the new IP and not the old one, and keeps every target already updated |
| Aliyun.StepKeeps | internal/aliyun/aliyun.go:65-314 | any successful step other than a revoke updates its target and keeps the others |
| Aliyun.EachKeeps | internal/aliyun/aliyun.go:65-314 | a successful revoke-free loop keeps every target already updated |
| Aliyun.EachEstablishes | internal/aliyun/aliyun.go:65-314 | after a successful revoke-free loop every one of its targets is updated |
| Aliyun.EcsUpdated | internal/aliyun/aliyun.go:65-91 | after a successful ECS update every configured group has the new IP's rule |
| Aliyun.InstancesUpdated | internal/aliyun/aliyun.go:167-190 | after a successful RDS or Redis update every configured group exists and holds the new IP and not the old one |
| Aliyun.AclsUpdated | internal/aliyun/aliyun.go:291-314 | after a successful CLB update every configured list holds the new IP and not the old one |
| Aliyun.GroupNotFoundMakesNoModify | internal/aliyun/aliyun.go:175-178 | a missing group ends that update after the describe call alone, with a "not found" error naming the instance |
| Aliyun.InstanceStepCalls | internal/aliyun/aliyun.go:175-186 | a successful group update is one describe, then one modify of `updateIPList` of the list read |
| AliyunClient.LookupGroup | internal/aliyun/aliyun.go:204-210 | the scan for the group name gives `FindGroup` |
| AliyunClient.StripAll | internal/aliyun/aliyun.go:328-331 | the loop over entries gives `StripMasks` |
| AliyunClient.BuildEntries | internal/aliyun/aliyun.go:379-389 | the loop over pieces gives `EntriesToAdd` |
| AliyunClient.CopyEntries | internal/aliyun/aliyun.go:354-360 | every current entry is listed for removal, in order |
| AliyunClient.Client.constructor | internal/aliyun/aliyun.go:27-62 | a client holds its account's configuration and its connection |
| AliyunClient.Client.Call | internal/aliyun/aliyun.go:121 | the new state and error are those of `Perform` |
| AliyunClient.Client.RemoveIPFromECSSecurityGroup | internal/aliyun/aliyun.go:94-131 | the new state and error are those of `RevokeRule` |
| AliyunClient.Client.AddIPToECSSecurityGroup | internal/aliyun/aliyun.go:134-164 | the new state and error are those of `AuthorizeRule` |
| AliyunClient.Client.UpdateECSWhitelist | internal/aliyun/aliyun.go:65-91 | the new state and error are those of `Each` over the ECS targets |
| AliyunClient.Client.RevokeFromAll | internal/aliyun/aliyun.go:71-78 | the revoke loop ends as `Each` over the revokes |
| AliyunClient.Client.AuthorizeOnAll | internal/aliyun/aliyun.go:81-88 | the authorize loop ends as `Each` over the authorizations |
| AliyunClient.Client.GetInstanceWhitelist | internal/aliyun/aliyun.go:193-211 | the new state and answer are those of `DescribeGroupList` |
| AliyunClient.Client.GetRDSWhitelist | internal/aliyun/aliyun.go:193-211 | the new state and answer are those of `DescribeGroupList` for RDS |
| AliyunClient.Client.GetRedisWhitelist | internal/aliyun/aliyun.go:258-276 | the new state and answer are those of `DescribeGroupList` for Redis |
| AliyunClient.Client.SetRDSWhitelist | internal/aliyun/aliyun.go:214-224 | the new state and error are those of `ModifyGroupList` for RDS |
| AliyunClient.Client.SetRedisWhitelist | internal/aliyun/aliyun.go:279-288 | the new state and error are those of `ModifyGroupList` for Redis |
| AliyunClient.Client.UpdateInstance | internal/aliyun/aliyun.go:173-187 | one group's get, `updateIPList` and set end as `Step` |
| AliyunClient.Client.UpdateInstances | internal/aliyun/aliyun.go:167-190 | the group loop ends as `Each` over the instance targets |
| AliyunClient.Client.UpdateRDSWhitelist | internal/aliyun/aliyun.go:167-190 | the new state and error are those of `Each` over the RDS targets |
| AliyunClient.Client.UpdateRedisWhitelist | internal/aliyun/aliyun.go:232-255 | the new state and error are those of `Each` over the Redis targets |
| AliyunClient.Client.GetCLBWhitelist | internal/aliyun/aliyun.go:317-333 | the new state and answer are those of `DescribeAclList` |
| AliyunClient.Client.SetCLBWhitelist | internal/aliyun/aliyun.go:336-403 | the new state and error are those of `ReplaceAclEntries` |
| AliyunClient.Client.UpdateAcl | internal/aliyun/aliyun.go:297-311 | one list's get, `updateIPList` and set end as `Step` |
| AliyunClient.Client.UpdateCLBWhitelist | internal/aliyun/aliyun.go:291-314 | the new state and error are those of `Each` over the CLB targets |
| Ip.FirstRead | internal/ip/ip.go:67-68 | the first read is a prefix of the body of at most 1024 characters, and the whole body when it fits |
| Ip.Checked | internal/ip/ip.go:73-78 | the trimmed text is the answer exactly when the parser accepts it; otherwise "invalid IP address" with that text |
| Ip.HttpAnswer | internal/ip/ip.go:42-79 | a request error or a status other than 200 is an error; an answer is the trimmed first read of a 200 reply, accepted by the parser |
| Ip.HttpReadErrorWithData | internal/ip/ip.go:68-71 | a read error that came with data is ignored |
| Ip.CommandAnswer | internal/ip/ip.go:82-98 | a failed command is an error; otherwise the answer is the trimmed output exactly when the parser accepts it |
| Ip.PickAddr | internal/ip/ip.go:114-137 | no answer exactly when no address is non-loopback of the requested family |
| Ip.PickAddrFirst | internal/ip/ip.go:114-137 | an answer is the first non-loopback address of the requested family |
| Ip.Named | internal/ip/ip.go:107-108 | the interfaces kept all have the configured name |
| Ip.OnlyNamedInterface | internal/ip/ip.go:107-108 | only interfaces with the configured name affect the answer |
| Ip.InterfaceAnswer | internal/ip/ip.go:101-142 | an answer is an eligible address of an interface with that name; with no such interface the answer is "not found" |
| Ip.NilAddressAnswersIpv6 | internal/ip/ip.go:114-131 | an address of another kind answers "<nil>" when IPv6 is requested |
| Ip.GetIPFromInterface | internal/ip/ip.go:101-142 | the nested loops give `FromInterface` |
| Ip.Resolve | internal/ip/ip.go:16-25 | a failure is always "all sources failed" |
| Ip.ResolveFirstAnswer | internal/ip/ip.go:16-25 | resolution succeeds exactly when some source gives a non-empty address, and then gives that of the first such source |
| Ip.LaterSourcesIgnored | internal/ip/ip.go:17-21 | sources after one that answers are never consulted |
| Ip.ResolvedAddressChecked | internal/ip/ip.go:73-97 | an address from HTTP or command sources is trimmed and accepted by the parser |
| Ip.ResolvedAddressPlain | internal/ip/ip.go:16-142 | in a well-formed environment, any resolved address, from any kind of source, is free of commas and surrounding white space |
| Ip.GetIPFromSource | internal/ip/ip.go:28-39 | the dispatch on the source type gives `FromSource`; an unknown type is an error |
| Ip.GetPublicIP | internal/ip/ip.go:16-25 | the loop over sources gives `Resolve` |
| Driver.ClientConfigs | cmd/cloud-whitelist-manager/main.go:46-66 | one client configuration per account, from `GetAliyun`, or the single legacy one when no account is listed |
| Driver.LabelsMatchClients | cmd/cloud-whitelist-manager/main.go:126-130 | every client is logged under its own account's name, and the legacy client under "account" |
| Driver.EnabledKinds | cmd/cloud-whitelist-manager/main.go:134-176 | a kind is updated exactly when enabled, in the order ECS, RDS, Redis, CLB |
| Driver.RunKinds | cmd/cloud-whitelist-manager/main.go:134-176 | one report per kind visited |
| Driver.OneReportPerKind | cmd/cloud-whitelist-manager/main.go:134-176 | every kind gets a report under the account's name, in order, even after an earlier kind failed |
| Driver.RunKindsSnoc | cmd/cloud-whitelist-manager/main.go:134-176 | one more kind runs from where the others left the provider, and its report comes last |
| Driver.KindUpdateSkipsDisabled | internal/aliyun/aliyun.go:66-68 | each kind's update is a no-op when that kind is disabled |
| Driver.SkipIfDisabled | cmd/cloud-whitelist-manager/main.go:135 | skipping a disabled kind leaves the provider as running it would |
| Driver.SkippingDisabledOf | cmd/cloud-whitelist-manager/main.go:134-176 | running only the enabled kinds of a list leaves the provider as running all of them |
| Driver.EnabledKindsFiltered | cmd/cloud-whitelist-manager/main.go:134-176 | the enabled kinds are the fixed order filtered by enabled |
| Driver.EnabledKindsInTurn | cmd/cloud-whitelist-manager/main.go:134-176 | taking each kind in turn if it is enabled gives the enabled kinds |
| Driver.SkippingDisabledKinds | cmd/cloud-whitelist-manager/main.go:134-176 | the `enabled` checks before each kind spare only log lines; the provider ends as if all four ran |
| Driver.CleanReportsMeanCleanRun | cmd/cloud-whitelist-manager/main.go:134-176 | when every kind reported success, the account's round is one successful run over all its targets |
| Driver.PlannedMember | cmd/cloud-whitelist-manager/main.go:134-176 | a visited kind's targets are among the account's targets |
| Driver.NoRevokesOutsideEcs | cmd/cloud-whitelist-manager/main.go:146-176 | RDS, Redis and CLB never revoke |
| Driver.PlannedAppend | cmd/cloud-whitelist-manager/main.go:134-176 | the targets of two kind lists in turn are the targets of their concatenation |
| Driver.LaterKinds | cmd/cloud-whitelist-manager/main.go:146-176 | the kinds after ECS do not include ECS |
| Driver.EcsLeads | cmd/cloud-whitelist-manager/main.go:134-143 | ECS, when enabled, comes before every other kind |
| Driver.EcsRevokes | internal/aliyun/aliyun.go:71-78 | an account's revokes are revoke targets only |
| Driver.NoRevokesAfterRevokes | cmd/cloud-whitelist-manager/main.go:134-176 | after the ECS revokes an account's round has no revoke |
| Driver.RevokesComeFirst | cmd/cloud-whitelist-manager/main.go:134-176 | an account's targets are its ECS revokes, then the authorizations and the later kinds |
| Driver.TargetPlanned | cmd/cloud-whitelist-manager/main.go:134-176 | a target of an enabled kind is a target of the account's round |
| Driver.EcsReconciled | internal/aliyun/aliyun.go:81-88 | when every target holds, every ECS group has the new IP's rule |
| Driver.InstancesReconciled | internal/aliyun/aliyun.go:173-187 | when every target holds, every RDS or Redis group holds the new IP and not the old one |
| Driver.AclsReconciled | internal/aliyun/aliyun.go:297-311 | when every target holds, every access control list holds the new IP and not the old one |
| Driver.CleanRoundHolds | cmd/cloud-whitelist-manager/main.go:134-176 | after a round in which every kind reported success, every target other than a revoke holds |
| Driver.HoldsPastRevokes | cmd/cloud-whitelist-manager/main.go:134-176 | a non-revoke target behind the revokes is one that was established |
| Driver.AccountReconciled | cmd/cloud-whitelist-manager/main.go:134-176 | if every kind of the round reports success and the new IP is comma-free and trimmed, the account is `Settled`: every security group has the new IP's rule, and every whitelist group and access control list holds the new IP and not the old one |
| Driver.ResolvedRoundSettled | cmd/cloud-whitelist-manager/main.go:108-176 | in a well-formed environment, an account whose round reports only successes is settled on the IP that was resolved; the IP needs no further assumption |
| Driver.ReportsNameTheirAccount | cmd/cloud-whitelist-manager/main.go:46-66 | for clients built from the configuration, every report of the i-th client names the i-th account, or "account" for the single legacy client |
| Driver.NextState | cmd/cloud-whitelist-manager/main.go:115-123 | a new IP becomes current and the previous current becomes last; the same IP changes nothing |
| Driver.NextStateIdempotent | cmd/cloud-whitelist-manager/main.go:115-119 | a second round with the same IP changes nothing |
| Driver.State.constructor | cmd/cloud-whitelist-manager/main.go:67-71 | the state starts with no IP known |
| Driver.State.UpdateIP | cmd/cloud-whitelist-manager/main.go:106-181 | a resolution failure is returned and changes nothing; the same IP changes nothing; otherwise the state moves on, every client runs its enabled kinds from the old current IP to the new one, and nil is returned; in a well-formed environment each client whose reports are all successes ends `Settled` on the new IP |
| Driver.State.UpdateAccounts | cmd/cloud-whitelist-manager/main.go:126-177 | every client, in order, runs its enabled kinds under its account's name |
| Driver.State.UpdateKind | cmd/cloud-whitelist-manager/main.go:137-170 | one kind's update ends as that kind's `Each` |
| Driver.State.UpdateAccount | cmd/cloud-whitelist-manager/main.go:134-176 | the account's four guarded updates end as `RunKinds` over its enabled kinds |
| Driver.State.UpdateIfEnabled | cmd/cloud-whitelist-manager/main.go:135-143 | a kind is run and reported only when it is enabled |

## Left out

- Reading and parsing the YAML file (`LoadConfig`) is left out. The model starts from the decoded `Config`.
- The SDK clients that `NewClient` builds are left out, along with request plumbing: HTTPS scheme, JSON encoding of entry lists, the rule description, the "MIX" network type and the priority's decimal formatting. `Client.constructor` takes the provider state in their place.
- `GetConfig` is the client's `config` field. It has no member of its own.
- The wording of error messages and of `fmt.Errorf` wrapping is not modelled. Errors are datatypes that carry the stage, the kind, the resource and the cause.
- Logging is not modelled. Each kind's outcome is returned as a `Report` instead.
- `main`'s ticker, its signal handling and its fatal exits on a bad configuration are not modelled. One call of `updateIP` is one call of `UpdateIP`.
- Real HTTP, process execution, network interfaces and timeouts are not modelled. They are inputs in `Ip.Env`, and the request headers are passed to it unread.
- `net.ParseIP` is an uninterpreted predicate in `Ip.Env`.
- Go strings are bytes; the model uses characters. The 1024-byte read limit is counted in characters.
- Go map iteration order is modelled as first-insertion order. Properties of the written list are stated over members, so they hold for any order.
- Two accounts that share a resource are not modelled: each `Client` has its own provider state.
- Aliyun.RevokeRule: a revoke error mentioning `InvalidParam.SourceCidrIp` is treated as success, but the model does not say whether the rule is then absent.
- Ip.EnvWellFormed: that `net.ParseIP` accepts no text holding a comma, and that interface addresses print without commas or surrounding white space, are assumed of the environment rather than proved, since the parser and the interface listing are not part of this model.
- Config.GetInterval: only intervals whose product fits in 64 bits get an exact value. Larger ones wrap, as in Go.
