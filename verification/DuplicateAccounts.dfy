/**
 * Which of several stored accounts owns an identity: the verified member of a
 * group where there is one, otherwise the first; every other member points at it.
 */
module DuplicateAccounts {
  import opened Wrappers
  import opened Json

  datatype Verdict = Verified | Mismatch | Unverified

  datatype Identity = Identity(name: string, state: Verdict, claimedEmail: Option<string>, verifiedEmail: Option<string>,
                               verifiedUuid: Option<string>, verifiedAt: Option<string>, duplicateOf: Option<string>)
  {
    predicate Trustworthy() { state == Verified && duplicateOf == None }
  }

  type Identities = seq<Identity>

  /** The identity an account resolved to, if any: its id, else its address regardless of case and padding. */
  function KeyOf(i: Identity): Option<string> {
    if i.verifiedUuid.Some? && i.verifiedUuid.value != "" then i.verifiedUuid
    else if i.verifiedEmail.Some? && Lower(Strip(i.verifiedEmail.value)) != "" then Some(Lower(Strip(i.verifiedEmail.value)))
    else None
  }

  /** The first account with this key; with `checked`, the first verified one. */
  function First(ids: Identities, key: string, checked: bool): (r: Option<nat>)
    ensures r.Some? ==> r.value < |ids| && KeyOf(ids[r.value]) == Some(key) && (checked ==> ids[r.value].state == Verified)
  {
    if ids == [] then None
    else
      var n := |ids| - 1;
      var before := First(ids[..n], key, checked);
      if before.Some? then before
      else if KeyOf(ids[n]) == Some(key) && (checked ==> ids[n].state == Verified) then Some(n)
      else None
  }

  /** No earlier account qualifies, and one is found whenever one qualifies. */
  lemma {:induction false} FirstIsFirst(ids: Identities, key: string, checked: bool, i: nat)
    requires i < |ids| && KeyOf(ids[i]) == Some(key) && (checked ==> ids[i].state == Verified)
    ensures First(ids, key, checked).Some? && First(ids, key, checked).value <= i
  {
    if i < |ids| - 1 {
      FirstIsFirst(ids[..|ids| - 1], key, checked, i);
    }
  }

  predicate NameVerified(ids: Identities, name: string) {
    exists i :: 0 <= i < |ids| && ids[i].name == name && ids[i].state == Verified
  }

  /** The owner's name once the first `n` accounts have had their say as verified members. */
  function OwnerName(ids: Identities, n: nat, key: string): string
    requires n <= |ids| && First(ids, key, false).Some?
  {
    var first := ids[First(ids, key, false).value].name;
    var checked := First(ids[..n], key, true);
    if checked.None? || NameVerified(ids, first) then first else ids[checked.value].name
  }

  function Marked(ids: Identities, i: Identity): Identity
  {
    var key := KeyOf(i);
    if key.None? || First(ids, key.value, false).None? then i
    else
      var owner := OwnerName(ids, |ids|, key.value);
      if owner == i.name then i else i.(duplicateOf := Some(owner))
  }

  /** Pass 1: the first member of each group. */
  method ProvisionalOwners(ids: Identities) returns (owners: map<string, string>)
    ensures forall k: string :: k in owners <==> First(ids, k, false).Some?
    ensures forall k :: k in owners ==> owners[k] == OwnerName(ids, 0, k)
  {
    hide KeyOf;
    owners := map[];
    for n := 0 to |ids|
      invariant forall k: string :: k in owners <==> First(ids[..n], k, false).Some?
      invariant forall k :: k in owners ==> owners[k] == ids[First(ids[..n], k, false).value].name
    {
      assert ids[..n + 1][..n] == ids[..n];
      var key := KeyOf(ids[n]);
      if key.Some? && key.value !in owners {
        owners := owners[key.value := ids[n].name];
      }
    }
    assert ids[..|ids|] == ids;
  }

  /** Pass 2: a verified member displaces an owner nobody verified. */
  method SettledOwners(ids: Identities, provisional: map<string, string>) returns (owners: map<string, string>)
    requires forall k: string :: k in provisional <==> First(ids, k, false).Some?
    requires forall k :: k in provisional ==> provisional[k] == OwnerName(ids, 0, k)
    ensures owners.Keys == provisional.Keys
    ensures forall k :: k in owners ==> owners[k] == OwnerName(ids, |ids|, k)
  {
    hide KeyOf, First, OwnerName, NameVerified;
    owners := provisional;
    for n := 0 to |ids|
      invariant owners.Keys == provisional.Keys
      invariant forall k :: k in owners ==> First(ids, k, false).Some? && owners[k] == OwnerName(ids, n, k)
    {
      var key := KeyOf(ids[n]);
      forall k | k in owners ensures OwnerName(ids, n + 1, k) == NextOwner(ids, n, k) {
        KeepsOrTakesOwner(ids, n, k);
      }
      if key.Some? && ids[n].state == Verified {
        FirstIsFirst(ids, key.value, false, n);
        if !NameVerified(ids, owners[key.value]) {
          owners := owners[key.value := ids[n].name];
        }
      }
    }
  }

  /** The two passes that settle the owners, and the one that marks the rest; `MarkingPointsAtOwners` and `OneRowPerIdentity` say what that comes to. */
  method MarkDuplicates(ids: Identities) returns (out: Identities)
    ensures |out| == |ids| && forall i :: 0 <= i < |ids| ==> out[i] == Marked(ids, ids[i])
  {
    hide KeyOf;
    var owners := ProvisionalOwners(ids);
    owners := SettledOwners(ids, owners);
    out := [];
    for n := 0 to |ids|
      invariant |out| == n && forall i :: 0 <= i < n ==> out[i] == Marked(ids, ids[i])
    {
      var key := KeyOf(ids[n]);
      if key.Some? { FirstIsFirst(ids, key.value, false, n); }
      if key.None? || owners[key.value] == ids[n].name {
        out := out + [ids[n]];
      } else {
        out := out + [ids[n].(duplicateOf := Some(owners[key.value]))];
      }
    }
  }

  /** A verified member takes over exactly from an owner nobody verified. */
  function NextOwner(ids: Identities, n: nat, key: string): string
    requires n < |ids| && First(ids, key, false).Some?
  {
    var owner := OwnerName(ids, n, key);
    if KeyOf(ids[n]) == Some(key) && ids[n].state == Verified && !NameVerified(ids, owner) then ids[n].name else owner
  }

  lemma KeepsOrTakesOwner(ids: Identities, n: nat, key: string)
    requires n < |ids| && First(ids, key, false).Some?
    ensures OwnerName(ids, n + 1, key) == NextOwner(ids, n, key)
  {
    hide KeyOf;
    assert ids[..n + 1][..n] == ids[..n];
    var checked := First(ids[..n], key, true);
    if checked.Some? {
      assert NameVerified(ids, ids[checked.value].name);
    }
  }

  // ---- What the marking means when names are distinct ------------------------------

  predicate DistinctNames(ids: Identities) {
    forall i, j :: 0 <= i < |ids| && 0 <= j < |ids| && ids[i].name == ids[j].name ==> i == j
  }

  /** The index of the account that owns a key: its first verified member if any, else its first. */
  function Owner(ids: Identities, key: string): (r: nat)
    requires First(ids, key, false).Some?
    ensures r < |ids| && KeyOf(ids[r]) == Some(key)
  {
    if First(ids, key, true).Some? then First(ids, key, true).value else First(ids, key, false).value
  }

  lemma OwnerNameIsOwners(ids: Identities, key: string)
    requires DistinctNames(ids) && First(ids, key, false).Some?
    ensures OwnerName(ids, |ids|, key) == ids[Owner(ids, key)].name
  {
    assert ids[..|ids|] == ids;
    var f := First(ids, key, false).value;
    if NameVerified(ids, ids[f].name) {
      var i :| 0 <= i < |ids| && ids[i].name == ids[f].name && ids[i].state == Verified;
      FirstIsFirst(ids, key, true, f);
      FirstIsFirst(ids, key, false, First(ids, key, true).value);
    }
  }

  /**
   * An account without an identity, or owning its own, is returned as it was;
   * every other is returned unchanged but for pointing at its owner, which
   * shares its identity and is itself returned as it was.
   */
  lemma MarkingPointsAtOwners(ids: Identities, i: nat)
    requires DistinctNames(ids) && i < |ids|
    ensures KeyOf(ids[i]).None? ==> Marked(ids, ids[i]) == ids[i]
    ensures KeyOf(ids[i]).Some? ==>
              && First(ids, KeyOf(ids[i]).value, false).Some?
              && var o := Owner(ids, KeyOf(ids[i]).value);
                 && Marked(ids, ids[i]) == (if o == i then ids[i] else ids[i].(duplicateOf := Some(ids[o].name)))
                 && KeyOf(ids[o]) == KeyOf(ids[i]) && Marked(ids, ids[o]) == ids[o]
  {
    if KeyOf(ids[i]).Some? {
      var key := KeyOf(ids[i]).value;
      FirstIsFirst(ids, key, false, i);
      OwnerNameIsOwners(ids, key);
    }
  }

  predicate Fresh(ids: Identities) { forall i :: 0 <= i < |ids| ==> ids[i].duplicateOf == None }

  /** Keyed accounts left unmarked: exactly the owners of the keys that occur. */
  lemma OnlyOwnersStandAlone(ids: Identities, i: nat)
    requires DistinctNames(ids) && Fresh(ids) && i < |ids| && KeyOf(ids[i]).Some?
    ensures First(ids, KeyOf(ids[i]).value, false).Some?
    ensures Marked(ids, ids[i]).duplicateOf == None <==> i == Owner(ids, KeyOf(ids[i]).value)
  {
    MarkingPointsAtOwners(ids, i);
  }

  /** An owner is verified whenever any account of its group is, and then it is the first such; so at most one row of a group can be trusted. */
  lemma VerifiedMembersOwn(ids: Identities, i: nat)
    requires DistinctNames(ids) && Fresh(ids) && i < |ids| && KeyOf(ids[i]).Some? && ids[i].state == Verified
    ensures First(ids, KeyOf(ids[i]).value, false).Some?
    ensures var o := Owner(ids, KeyOf(ids[i]).value);
            && ids[o].state == Verified && o <= i
            && (Marked(ids, ids[i]).Trustworthy() <==> i == o)
  {
    FirstIsFirst(ids, KeyOf(ids[i]).value, true, i);
    OnlyOwnersStandAlone(ids, i);
  }

  function Keys(ids: Identities): set<string> {
    set i | 0 <= i < |ids| && KeyOf(ids[i]).Some? :: KeyOf(ids[i]).value
  }

  function StandingAlone(ids: Identities): set<nat> {
    set i: nat | i < |ids| && KeyOf(ids[i]).Some? && Marked(ids, ids[i]).duplicateOf == None :: i
  }

  /** Counting accounts by unmarked rows counts every identity once. */
  lemma OneRowPerIdentity(ids: Identities)
    requires DistinctNames(ids) && Fresh(ids)
    ensures |StandingAlone(ids)| == |Keys(ids)|
  {
    forall k | k in Keys(ids) ensures First(ids, k, false).Some? && Owner(ids, k) in StandingAlone(ids) {
      var i :| 0 <= i < |ids| && KeyOf(ids[i]) == Some(k);
      FirstIsFirst(ids, k, false, i);
      OnlyOwnersStandAlone(ids, Owner(ids, k));
    }
    forall i | i in StandingAlone(ids) ensures KeyOf(ids[i]).value in Keys(ids) && First(ids, KeyOf(ids[i]).value, false).Some? && Owner(ids, KeyOf(ids[i]).value) == i {
      OnlyOwnersStandAlone(ids, i);
    }
    SameSize(ids, Keys(ids), StandingAlone(ids));
  }

  lemma {:induction false} SameSize(ids: Identities, keys: set<string>, rows: set<nat>)
    requires forall k :: k in keys ==> First(ids, k, false).Some? && Owner(ids, k) in rows
    requires forall i :: i in rows ==> i < |ids| && KeyOf(ids[i]).Some? && KeyOf(ids[i]).value in keys && Owner(ids, KeyOf(ids[i]).value) == i
    ensures |keys| == |rows|
  {
    if keys == {} {
      assert rows == {};
    } else {
      var k :| k in keys;
      SameSize(ids, keys - {k}, rows - {Owner(ids, k)});
    }
  }
}
