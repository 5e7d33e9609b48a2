/** The whitelist entry synchronizer: `updateIPList` of internal/aliyun/aliyun.go,
    which reads a comma-separated IP list as a set, removes the old IP, adds the
    new one and writes the set back as a comma-separated list. */
module Whitelist {
  import opened Strings

  const Comma: char := ','

  function Elems(s: seq<string>): set<string> {
    set x | x in s
  }

  predicate Distinct(s: seq<string>) {
    forall i, j :: 0 <= i < j < |s| ==> s[i] != s[j]
  }

  /** The entries named by a list of pieces: each piece trimmed, empty ones dropped. */
  function PieceMembers(pieces: seq<string>): set<string> {
    if pieces == [] then {}
    else
      var t := TrimSpace(pieces[|pieces| - 1]);
      PieceMembers(pieces[..|pieces| - 1]) + (if t != "" then {t} else {})
  }

  /** The membership a comma-separated whitelist stands for. */
  function Members(list: string): set<string> {
    PieceMembers(Split(list, Comma))
  }

  /** The set transformation the synchronizer performs: drop `oldIP` unless it
      is empty, then add `newIP` unless it is empty. */
  function Sync(m: set<string>, oldIP: string, newIP: string): set<string> {
    (if oldIP != "" then m - {oldIP} else m) + (if newIP != "" then {newIP} else {})
  }

  /** The keys the source's map holds after its first loop, in the order they
      were first inserted: the distinct trimmed non-empty pieces. */
  function Collect(pieces: seq<string>): (keys: seq<string>)
    ensures Distinct(keys)
    ensures forall k :: 0 <= k < |keys| ==> keys[k] != "" && Trimmed(keys[k])
  {
    if pieces == [] then []
    else
      var prev := Collect(pieces[..|pieces| - 1]);
      var t := TrimSpace(pieces[|pieces| - 1]);
      if t == "" || t in prev then prev else prev + [t]
  }

  /** Collecting one more piece adds its trimmed form, unless it is empty or
      already collected. */
  lemma CollectSnoc(init: seq<string>, last: string)
    ensures var t := TrimSpace(last);
            Collect(init + [last]) == if t == "" || t in Collect(init) then Collect(init) else Collect(init) + [t]
  {
    assert (init + [last])[..|init|] == init;
  }

  /** The collected keys are exactly the entries the pieces name. */
  lemma {:induction false} CollectMembers(pieces: seq<string>)
    ensures Elems(Collect(pieces)) == PieceMembers(pieces)
  {
    if pieces != [] {
      var init := pieces[..|pieces| - 1];
      var last := pieces[|pieces| - 1];
      CollectMembers(init);
    }
  }

  /** Keys collected from comma-free pieces are comma-free. */
  lemma {:induction false} CollectCommaFree(pieces: seq<string>)
    requires forall i :: 0 <= i < |pieces| ==> Comma !in pieces[i]
    ensures forall k :: 0 <= k < |Collect(pieces)| ==> Comma !in Collect(pieces)[k]
  {
    if pieces != [] {
      CollectCommaFree(pieces[..|pieces| - 1]);
      TrimSpaceIsSlice(pieces[|pieces| - 1]);
    }
  }

  /** `s` without `x`. */
  function Without(s: seq<string>, x: string): (r: seq<string>)
    ensures Elems(r) == Elems(s) - {x}
    ensures Distinct(s) ==> Distinct(r)
    ensures forall k :: 0 <= k < |r| ==> r[k] in s
  {
    if s == [] then []
    else
      var rest := Without(s[1..], x);
      assert s == [s[0]] + s[1..];
      assert Elems(s) == {s[0]} + Elems(s[1..]);
      if s[0] == x then rest
      else
        assert Elems([s[0]] + rest) == {s[0]} + Elems(rest);
        [s[0]] + rest
  }

  /** The synchronization applied to a list of entries: `oldIP` removed and
      `newIP` appended when absent, each step skipped for an empty IP. */
  function SyncEntries(keys: seq<string>, oldIP: string, newIP: string): (r: seq<string>)
    ensures Elems(r) == Sync(Elems(keys), oldIP, newIP)
    ensures Distinct(keys) ==> Distinct(r)
    ensures (forall k :: 0 <= k < |keys| ==> keys[k] != "") ==> forall k :: 0 <= k < |r| ==> r[k] != ""
  {
    var kept := if oldIP != "" then Without(keys, oldIP) else keys;
    assert Elems(kept + [newIP]) == Elems(kept) + {newIP};
    if newIP != "" && newIP !in kept then kept + [newIP] else kept
  }

  /** The entries `updateIPList` writes back, in the order this model gives
      the source's map: no duplicates and no empty entry. */
  function UpdatedEntries(currentList: string, oldIP: string, newIP: string): (r: seq<string>)
    ensures Distinct(r)
    ensures forall k :: 0 <= k < |r| ==> r[k] != ""
  {
    SyncEntries(Collect(Split(currentList, Comma)), oldIP, newIP)
  }

  /** As a set, the written entries are exactly the synchronized membership. */
  lemma {:induction false} UpdatedEntriesMembers(currentList: string, oldIP: string, newIP: string)
    ensures Elems(UpdatedEntries(currentList, oldIP, newIP)) == Sync(Members(currentList), oldIP, newIP)
  {
    CollectMembers(Split(currentList, Comma));
  }

  /** The written entries are comma-free when the new IP is, and trimmed
      when the new IP is. */
  lemma {:induction false} UpdatedEntriesShape(currentList: string, oldIP: string, newIP: string)
    requires Comma !in newIP
    ensures forall k :: 0 <= k < |UpdatedEntries(currentList, oldIP, newIP)| ==>
              var e := UpdatedEntries(currentList, oldIP, newIP)[k];
              Comma !in e && (Trimmed(newIP) ==> Trimmed(e))
  {
    var keys := Collect(Split(currentList, Comma));
    var r := UpdatedEntries(currentList, oldIP, newIP);
    CollectCommaFree(Split(currentList, Comma));
    forall k | 0 <= k < |r|
      ensures Comma !in r[k] && (Trimmed(newIP) ==> Trimmed(r[k]))
    {
      assert r[k] in Elems(r);
      if r[k] != newIP {
        var j :| 0 <= j < |keys| && keys[j] == r[k];
      }
    }
  }

  /** The list `updateIPList` returns. */
  function UpdatedIPList(currentList: string, oldIP: string, newIP: string): string {
    Join(UpdatedEntries(currentList, oldIP, newIP), Comma)
  }

  /** The first loop of `updateIPList`: inserts every trimmed non-empty piece
      into the map. */
  method CollectKeys(ips: seq<string>) returns (ipMap: seq<string>)
    ensures ipMap == Collect(ips)
  {
    ipMap := [];
    var i := 0;
    while i < |ips|
      invariant 0 <= i <= |ips|
      invariant ipMap == Collect(ips[..i])
    {
      var ip := TrimSpace(ips[i]);
      assert ips[..i + 1] == ips[..i] + [ips[i]];
      CollectSnoc(ips[..i], ips[i]);
      if ip != "" && ip !in ipMap {
        ipMap := ipMap + [ip];
      }
      i := i + 1;
    }
    assert ips[..|ips|] == ips;
  }

  /** `updateIPList`: builds the set of trimmed non-empty entries, deletes
      `oldIP`, inserts `newIP` and joins the keys with commas. */
  method UpdateIPList(currentList: string, oldIP: string, newIP: string) returns (r: string)
    ensures r == UpdatedIPList(currentList, oldIP, newIP)
  {
    var ipMap := CollectKeys(Split(currentList, Comma));
    if oldIP != "" {
      ipMap := Without(ipMap, oldIP);
    }
    if newIP != "" && newIP !in ipMap {
      ipMap := ipMap + [newIP];
    }
    var newIPs: seq<string> := [];
    var j := 0;
    while j < |ipMap|
      invariant |newIPs| == j <= |ipMap|
      invariant forall k :: 0 <= k < j ==> newIPs[k] == ipMap[k]
    {
      newIPs := newIPs + [ipMap[j]];
      j := j + 1;
    }
    assert newIPs == ipMap;
    r := Join(newIPs, Comma);
  }

  /** When every entry is trimmed and non-empty, the membership of the pieces
      is just their set. */
  lemma {:induction false} PieceMembersOfEntries(es: seq<string>)
    requires forall k :: 0 <= k < |es| ==> es[k] != "" && Trimmed(es[k])
    ensures PieceMembers(es) == Elems(es)
  {
    if es != [] {
      var init := es[..|es| - 1];
      var last := es[|es| - 1];
      PieceMembersOfEntries(init);
      TrimmedIsFixpoint(last);
      assert es == init + [last];
      assert Elems(es) == Elems(init) + {last};
    }
  }

  /** Reading back the written list gives the synchronized membership, when
      the new IP is trimmed and holds no comma. */
  lemma {:induction false} MembersOfUpdated(currentList: string, oldIP: string, newIP: string)
    requires Comma !in newIP && Trimmed(newIP)
    ensures Members(UpdatedIPList(currentList, oldIP, newIP)) == Sync(Members(currentList), oldIP, newIP)
  {
    var es := UpdatedEntries(currentList, oldIP, newIP);
    UpdatedEntriesMembers(currentList, oldIP, newIP);
    if es == [] {
      assert Split("", Comma) == [""];
      assert PieceMembers([""]) == {};
    } else {
      UpdatedEntriesShape(currentList, oldIP, newIP);
      SplitJoin(es, Comma);
      PieceMembersOfEntries(es);
    }
  }

  /** The written list has no duplicate and no empty entry, provided the new
      IP holds no comma. */
  lemma {:induction false} UpdatedListWellFormed(currentList: string, oldIP: string, newIP: string)
    requires Comma !in newIP
    ensures var r := UpdatedIPList(currentList, oldIP, newIP);
            r == "" || (Distinct(Split(r, Comma)) && forall k :: 0 <= k < |Split(r, Comma)| ==> Split(r, Comma)[k] != "")
  {
    var es := UpdatedEntries(currentList, oldIP, newIP);
    if es != [] {
      UpdatedEntriesShape(currentList, oldIP, newIP);
      SplitJoin(es, Comma);
    }
  }

  // Laws of the set transformation.

  lemma SyncIdentity(m: set<string>)
    ensures Sync(m, "", "") == m
  {
  }

  lemma SyncSameIp(m: set<string>, ip: string)
    requires ip != ""
    ensures Sync(m, ip, ip) == m + {ip}
  {
  }

  lemma SyncReapplyAdd(m: set<string>, oldIP: string, newIP: string)
    ensures Sync(Sync(m, oldIP, newIP), "", newIP) == Sync(m, oldIP, newIP)
  {
  }

  lemma SyncUndo(m: set<string>, oldIP: string, newIP: string)
    requires oldIP != "" && newIP != "" && oldIP != newIP
    requires oldIP in m && newIP !in m
    ensures Sync(Sync(m, oldIP, newIP), newIP, oldIP) == m
  {
  }

  // The same laws for the list `updateIPList` returns, read back as a whitelist.

  /** With no old and no new IP the membership is unchanged. */
  lemma {:induction false} IdentityLaw(currentList: string)
    ensures Members(UpdatedIPList(currentList, "", "")) == Members(currentList)
  {
    MembersOfUpdated(currentList, "", "");
  }

  /** With the same old and new IP the membership gains that IP. */
  lemma {:induction false} SameIpLaw(currentList: string, ip: string)
    requires ip != "" && Comma !in ip && Trimmed(ip)
    ensures Members(UpdatedIPList(currentList, ip, ip)) == Members(currentList) + {ip}
  {
    MembersOfUpdated(currentList, ip, ip);
  }

  /** Re-applying only the addition of the new IP to the written list changes
      nothing. */
  lemma {:induction false} ReapplyLaw(currentList: string, oldIP: string, newIP: string)
    requires Comma !in newIP && Trimmed(newIP)
    ensures var written := UpdatedIPList(currentList, oldIP, newIP);
            Members(UpdatedIPList(written, "", newIP)) == Members(written)
  {
    var written := UpdatedIPList(currentList, oldIP, newIP);
    MembersOfUpdated(currentList, oldIP, newIP);
    MembersOfUpdated(written, "", newIP);
  }

  /** Applying a change and then its reverse restores the membership. */
  lemma {:induction false} UndoLaw(currentList: string, oldIP: string, newIP: string)
    requires oldIP != "" && newIP != "" && oldIP != newIP
    requires Comma !in oldIP && Trimmed(oldIP) && Comma !in newIP && Trimmed(newIP)
    requires oldIP in Members(currentList) && newIP !in Members(currentList)
    ensures Members(UpdatedIPList(UpdatedIPList(currentList, oldIP, newIP), newIP, oldIP)) == Members(currentList)
  {
    var written := UpdatedIPList(currentList, oldIP, newIP);
    MembersOfUpdated(currentList, oldIP, newIP);
    MembersOfUpdated(written, newIP, oldIP);
  }

  /** After an update, the new IP is a member and a different old IP is not. */
  predicate Reconciled(list: string, oldIP: string, newIP: string) {
    && (newIP != "" ==> newIP in Members(list))
    && (oldIP != "" && oldIP != newIP ==> oldIP !in Members(list))
  }

  lemma {:induction false} UpdatedIsReconciled(currentList: string, oldIP: string, newIP: string)
    requires Comma !in newIP && Trimmed(newIP)
    ensures Reconciled(UpdatedIPList(currentList, oldIP, newIP), oldIP, newIP)
  {
    MembersOfUpdated(currentList, oldIP, newIP);
  }
}
