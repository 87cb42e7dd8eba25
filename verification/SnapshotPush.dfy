/**
 * Replacing one credential file on a peer: stage a sibling, verify it, rename
 * it into place, prove the result. Only when the rename is refused as busy is
 * the live path written in place.
 */
module SnapshotPush {
  import opened Wrappers
  import opened RemotePeer

  datatype Method = RenamePublish | InPlacePublish

  datatype Published = Published(publish: Method, mode: nat, size: nat)

  datatype PushError =
    | NotAbsolute
    | NoSnapshot
    | UnsafePath
    | DirectoryFailed
    | WriteFailed
    | HardenFailed
    | StatUnreadable
    | WrongMode
    | WrongSize
    | PublishFailed
    | LiveUnverified

  predicate SafeChar(c: char) {
    'A' <= c <= 'Z' || 'a' <= c <= 'z' || '0' <= c <= '9' || c in "._@%+:/-"
  }

  predicate SafePath(p: RemotePath) {
    forall c :: c in p.dir + p.name ==> SafeChar(c)
  }

  /** The live path holds exactly what it held before the push, or the whole payload with the one allowed mode. */
  predicate LiveOk(before: Files, now: Files, remote: RemotePath, payload: Bytes) {
    Lookup(now, remote) == Lookup(before, remote) || Lookup(now, remote) == Some(Entry(payload, FILE_MODE))
  }

  /** Every state from index `from` on leaves all paths but `touched` alone. */
  ghost predicate Confined(trace: seq<Files>, from: nat, before: Files, touched: set<RemotePath>) {
    forall k :: from <= k < |trace| ==> SameExcept(before, trace[k], touched)
  }

  /** Every state from index `from` on has an acceptable live path. */
  ghost predicate AlwaysLiveOk(trace: seq<Files>, from: nat, before: Files, remote: RemotePath, payload: Bytes) {
    forall k :: from <= k < |trace| ==> LiveOk(before, trace[k], remote, payload)
  }

  lemma StagedIsNotLive(remote: RemotePath)
    ensures Staged(remote) != remote
  {
    assert |Staged(remote).name| == |remote.name| + |STAGED_SUFFIX|;
  }

  /** A single in-place write caught before its first byte leaves a live file that is neither the old one nor the payload; `FallbackRunCanTear` is a push in which it happens. */
  lemma InPlaceWriteCanTear(before: Files, remote: RemotePath, payload: Bytes)
    requires payload != [] && (remote in before ==> before[remote].content != [])
    ensures exists f: Fault :: !LiveOk(before, Written(before, remote, Prefix(payload, f.partway), f), remote, payload)
  {
    var f := Fault(true, true, true, true, true, None, 0, 644);
    assert !LiveOk(before, Written(before, remote, Prefix(payload, f.partway), f), remote, payload);
  }

  /** The GNU spelling, then the BSD one; the first readable answer wins. */
  method StatRemote(peer: Peer, p: RemotePath) returns (r: Option<(nat, nat)>)
    requires peer.Valid()
    modifies peer
    ensures peer.Valid() && peer.files == old(peer.files)
    ensures old(peer.trace) <= peer.trace && old(peer.clock) <= peer.clock
    ensures forall k :: |old(peer.trace)| <= k < |peer.trace| ==> peer.trace[k] == peer.files
    ensures r.Some? ==> p in peer.files && r.value == (peer.files[p].mode, |peer.files[p].content|)
    ensures Faultless(peer.plan(old(peer.clock))) && p in peer.files ==> r.Some? && peer.clock == old(peer.clock) + 1
  {
    r := None;
    var attempt := 0;
    while attempt < 2 && r.None?
      invariant attempt <= 2 && peer.Valid() && peer.files == old(peer.files)
      invariant old(peer.trace) <= peer.trace && old(peer.clock) <= peer.clock
      invariant forall k :: |old(peer.trace)| <= k < |peer.trace| ==> peer.trace[k] == peer.files
      invariant r.Some? ==> p in peer.files && r.value == (peer.files[p].mode, |peer.files[p].content|)
      invariant attempt == 0 ==> r.None? && peer.clock == old(peer.clock)
      invariant attempt > 0 && Faultless(peer.plan(old(peer.clock))) && p in peer.files ==> r.Some? && peer.clock == old(peer.clock) + 1
    {
      r := peer.Stat(p);
      attempt := attempt + 1;
    }
  }

  /** The last operation asked of the peer, a removal where this is used, took place. */
  predicate LastHappened(peer: Peer)
    reads peer
  {
    peer.clock > 0 && peer.plan(peer.clock - 1).happens
  }

  /** Write, harden and read back the staged sibling. */
  method StageOnly(peer: Peer, remote: RemotePath, payload: Bytes) returns (error: Option<PushError>)
    requires peer.Valid()
    modifies peer
    ensures peer.Valid() && old(peer.trace) <= peer.trace && old(peer.clock) <= peer.clock
    ensures Confined(peer.trace, |old(peer.trace)|, old(peer.files), {Staged(remote)})
    ensures error.None? ==> Lookup(peer.files, Staged(remote)) == Some(Entry(payload, FILE_MODE))
    ensures error != Some(LiveUnverified) && error != Some(DirectoryFailed)
    ensures (forall k :: old(peer.clock) <= k < old(peer.clock) + 3 ==> Faultless(peer.plan(k))) ==> error.None? && peer.clock == old(peer.clock) + 3
  {
    var staged := Staged(remote);
    var ok := peer.Dd(staged, payload);
    if !ok { return Some(WriteFailed); }
    ok := peer.Chmod(staged, FILE_MODE);
    if !ok { return Some(HardenFailed); }
    var s := StatRemote(peer, staged);
    if s.None? { return Some(StatUnreadable); }
    if s.value.0 != FILE_MODE { return Some(WrongMode); }
    if s.value.1 != |payload| { return Some(WrongSize); }
    error := None;
  }

  /** Steps 1 to 3: nothing here ever reaches the live path; success means a complete, hardened staged file, and a failed staging is taken away again. */
  method StageAndVerify(peer: Peer, remote: RemotePath, payload: Bytes) returns (error: Option<PushError>)
    requires peer.Valid()
    modifies peer
    ensures peer.Valid() && old(peer.trace) < peer.trace && old(peer.clock) <= peer.clock
    ensures Confined(peer.trace, |old(peer.trace)|, old(peer.files), {Staged(remote)})
    ensures error.None? ==> Lookup(peer.files, Staged(remote)) == Some(Entry(payload, FILE_MODE))
    ensures error.Some? && error != Some(DirectoryFailed) && LastHappened(peer) ==> Staged(remote) !in peer.files
    ensures error != Some(LiveUnverified)
    ensures (forall k :: old(peer.clock) <= k < old(peer.clock) + 5 ==> Faultless(peer.plan(k))) ==> error.None? && peer.clock == old(peer.clock) + 5
  {
    var ok := peer.Command();
    if !ok { return Some(DirectoryFailed); }
    ok := peer.Command();
    if !ok { return Some(DirectoryFailed); }
    error := StageOnly(peer, remote, payload);
    if error.Some? {
      peer.Discard(Staged(remote));
    }
  }

  /** The deliberate, non-atomic fallback: overwrite, harden, drop the staged copy. */
  method WriteInPlace(peer: Peer, remote: RemotePath, payload: Bytes) returns (error: Option<PushError>)
    requires peer.Valid()
    modifies peer
    ensures peer.Valid() && old(peer.trace) <= peer.trace && old(peer.clock) <= peer.clock
    ensures Confined(peer.trace, |old(peer.trace)|, old(peer.files), {remote, Staged(remote)})
    ensures error != Some(LiveUnverified) && (error.None? && LastHappened(peer) ==> Staged(remote) !in peer.files)
    ensures var f := peer.plan(old(peer.clock));
            !(f.happens && f.reports) ==> error == Some(WriteFailed) && peer.clock == old(peer.clock) + 1 && peer.files == AfterDd(old(peer.files), remote, payload, f)
    ensures error.None? ==> Lookup(peer.files, remote).Some? && peer.files[remote].content <= payload
  {
    StagedIsNotLive(remote);
    var ok := peer.Dd(remote, payload);
    if !ok { return Some(WriteFailed); }
    ok := peer.Chmod(remote, FILE_MODE);
    if !ok { return Some(HardenFailed); }
    peer.Discard(Staged(remote));
    error := None;
  }

  /** Read the live path back; whatever does not verify is removed. */
  method ProveLive(peer: Peer, remote: RemotePath, payload: Bytes) returns (error: Option<PushError>)
    requires peer.Valid()
    requires remote in peer.files ==> peer.files[remote].content <= payload
    modifies peer
    ensures peer.Valid() && old(peer.trace) <= peer.trace && old(peer.clock) <= peer.clock
    ensures Confined(peer.trace, |old(peer.trace)|, old(peer.files), {remote})
    ensures error.None? ==> Lookup(peer.files, remote) == Some(Entry(payload, FILE_MODE)) && peer.files == old(peer.files)
    ensures error == Some(StatUnreadable) ==> peer.files == old(peer.files)
    ensures error.Some? && error != Some(StatUnreadable) ==> error == Some(LiveUnverified) && (LastHappened(peer) ==> remote !in peer.files)
    ensures Lookup(old(peer.files), remote) == Some(Entry(payload, FILE_MODE)) ==>
              forall k :: |old(peer.trace)| <= k < |peer.trace| ==> peer.trace[k] == old(peer.files)
    ensures Lookup(old(peer.files), remote) == Some(Entry(payload, FILE_MODE)) && Faultless(peer.plan(old(peer.clock))) ==> error.None?
  {
    var s := StatRemote(peer, remote);
    if s.None? {
      return Some(StatUnreadable);
    }
    if s.value.0 != FILE_MODE || s.value.1 != |payload| {
      peer.Discard(remote);
      return Some(LiveUnverified);
    }
    assert peer.files[remote].content == payload;
    error := None;
  }

  /** A rename under this fault does not report success, and is described as finding its target busy. */
  predicate RefusedAsBusy(f: Fault) { f.busy && !(f.happens && f.reports) }

  /** Some operation from `from` on and before `to` was such a rename. */
  ghost predicate BusyBetween(peer: Peer, from: nat, to: nat) {
    exists k :: from <= k < to && RefusedAsBusy(peer.plan(k))
  }

  /** The rename is refused as busy, and the write in place that follows reports failure. */
  predicate BusyThenCutOff(peer: Peer, since: nat) {
    var mv, dd := peer.plan(since), peer.plan(since + 1);
    !mv.happens && mv.busy && !(dd.happens && dd.reports)
  }

  /**
   * Make the staged file live. `fellBack` says exactly whether the rename was refused
   * as busy; only then is the live path ever anything but old or complete.
   */
  method PublishVerified(peer: Peer, remote: RemotePath, payload: Bytes) returns (r: Result<Published, PushError>, fellBack: bool)
    requires peer.Valid()
    requires Lookup(peer.files, Staged(remote)) == Some(Entry(payload, FILE_MODE))
    modifies peer
    ensures peer.Valid() && old(peer.trace) <= peer.trace && old(peer.clock) <= peer.clock
    ensures Confined(peer.trace, |old(peer.trace)|, old(peer.files), {remote, Staged(remote)})
    ensures !fellBack ==> AlwaysLiveOk(peer.trace, |old(peer.trace)|, old(peer.files), remote, payload)
    ensures old(peer.clock) < peer.clock && (fellBack <==> RefusedAsBusy(peer.plan(old(peer.clock))))
    ensures r.Ok? ==> Lookup(peer.files, remote) == Some(Entry(payload, FILE_MODE))
    ensures r == Err(LiveUnverified) && LastHappened(peer) ==> remote !in peer.files
    ensures r.Ok? && !fellBack ==> Staged(remote) !in peer.files
    ensures r.Ok? ==> r.value == Published(if fellBack then InPlacePublish else RenamePublish, FILE_MODE, |payload|)
    ensures BusyThenCutOff(peer, old(peer.clock)) ==>
              r == Err(WriteFailed) && fellBack && peer.clock == old(peer.clock) + 2 && peer.files == AfterDd(old(peer.files), remote, payload, peer.plan(old(peer.clock) + 1))
    ensures (forall k :: old(peer.clock) <= k ==> Faultless(peer.plan(k))) ==> r.Ok? && !fellBack
  {
    StagedIsNotLive(remote);
    fellBack := false;
    var moved, busy := peer.Mv(Staged(remote), remote);
    if !moved {
      if !busy {
        return Err(PublishFailed), fellBack;
      }
      fellBack := true;
      var failed := WriteInPlace(peer, remote, payload);
      if failed.Some? {
        return Err(failed.value), fellBack;
      }
    }
    var unproven := ProveLive(peer, remote, payload);
    if unproven.Some? {
      return Err(unproven.value), fellBack;
    }
    r := Ok(Published(if fellBack then InPlacePublish else RenamePublish, peer.files[remote].mode, |peer.files[remote].content|));
  }

  /** Two stretches of a run that each touch little touch, together, no more than both. */
  lemma ConfinedAcross(half: seq<Files>, full: seq<Files>, from: nat, before: Files, mid: Files, first: set<RemotePath>, second: set<RemotePath>)
    requires from <= |half| && half <= full && half != [] && half[|half| - 1] == mid
    requires from == |half| ==> mid == before
    requires Confined(half, from, before, first)
    requires Confined(full, |half|, mid, second)
    ensures Confined(full, from, before, first + second)
  {
    if from < |half| { assert SameExcept(before, half[|half| - 1], first); }
    forall k | from <= k < |full| ensures SameExcept(before, full[k], first + second) {
      if k < |half| { assert full[k] == half[k]; }
    }
  }

  /** While staging the live path stands still, so what publishing starts from is what the push started from. */
  lemma LiveOkAcross(half: seq<Files>, full: seq<Files>, from: nat, before: Files, staged: Files, remote: RemotePath, payload: Bytes)
    requires from < |half| && half <= full && half[|half| - 1] == staged
    requires Confined(half, from, before, {Staged(remote)})
    requires AlwaysLiveOk(full, |half|, staged, remote, payload)
    ensures AlwaysLiveOk(full, from, before, remote, payload)
  {
    StagedIsNotLive(remote);
    assert SameExcept(before, staged, {Staged(remote)});
    forall k | from <= k < |full| ensures LiveOk(before, full[k], remote, payload) {
      if k < |half| {
        assert full[k] == half[k];
        assert SameExcept(before, half[k], {Staged(remote)});
      }
    }
  }

  /** The bytes a push sends: those it was handed, or else the local file's. */
  function Sent(localFile: Option<Bytes>, payload: Option<Bytes>): Bytes {
    if payload.Some? then payload.value else if localFile.Some? then localFile.value else []
  }

  /**
   * The whole push. At every state it goes through, and so after a crash at any
   * of them, a push that did not fall back has left the live path old or
   * complete; a push that returns has left it complete.
   */
  method PushSnapshot(peer: Peer, localAbsolute: bool, localFile: Option<Bytes>, remote: RemotePath, payload: Option<Bytes>)
      returns (r: Result<Published, PushError>, fellBack: bool)
    requires peer.Valid()
    modifies peer
    ensures peer.Valid() && old(peer.trace) <= peer.trace && old(peer.clock) <= peer.clock
    ensures Confined(peer.trace, |old(peer.trace)|, old(peer.files), {remote, Staged(remote)})
    ensures !fellBack ==> AlwaysLiveOk(peer.trace, |old(peer.trace)|, old(peer.files), remote, Sent(localFile, payload))
    ensures fellBack ==> BusyBetween(peer, old(peer.clock), peer.clock)
    ensures r.Ok? ==> Lookup(peer.files, remote) == Some(Entry(Sent(localFile, payload), FILE_MODE))
    ensures r.Ok? ==> r.value == Published(if fellBack then InPlacePublish else RenamePublish, FILE_MODE, |Sent(localFile, payload)|)
    ensures r == Err(LiveUnverified) && LastHappened(peer) ==> remote !in peer.files
    ensures r.Ok? && !fellBack ==> Staged(remote) !in peer.files
    ensures !localAbsolute || (payload.None? && localFile.None?) || !SafePath(remote) ==> r.Err? && peer.trace == old(peer.trace)
    ensures localAbsolute && (payload.Some? || localFile.Some?) && SafePath(remote)
            && (forall k :: old(peer.clock) <= k < old(peer.clock) + 5 ==> Faultless(peer.plan(k))) && BusyThenCutOff(peer, old(peer.clock) + 5)
            ==> r == Err(WriteFailed) && fellBack && peer.clock >= old(peer.clock) + 7
                && Lookup(peer.files, remote) == Lookup(AfterDd(old(peer.files), remote, Sent(localFile, payload), peer.plan(old(peer.clock) + 6)), remote)
    ensures localAbsolute && (payload.Some? || localFile.Some?) && SafePath(remote)
            && (forall k :: old(peer.clock) <= k ==> Faultless(peer.plan(k)))
            ==> r.Ok? && !fellBack
  {
    fellBack := false;
    if !localAbsolute { return Err(NotAbsolute), fellBack; }
    if payload.None? && localFile.None? { return Err(NoSnapshot), fellBack; }
    if !SafePath(remote) { return Err(UnsafePath), fellBack; }
    var bytes := if payload.Some? then payload.value else localFile.value;
    var error := StageAndVerify(peer, remote, bytes);
    ghost var staged, half := peer.files, peer.trace;
    StagingLeavesLive(half, |old(peer.trace)|, old(peer.files), remote);
    assert {Staged(remote)} + {remote, Staged(remote)} == {remote, Staged(remote)};
    if error.Some? {
      ConfinedAcross(half, half, |old(peer.trace)|, old(peer.files), staged, {Staged(remote)}, {remote, Staged(remote)});
      LiveOkAcross(half, half, |old(peer.trace)|, old(peer.files), staged, remote, bytes);
      return Err(error.value), fellBack;
    }
    r, fellBack := PublishVerified(peer, remote, bytes);
    ConfinedAcross(half, peer.trace, |old(peer.trace)|, old(peer.files), staged, {Staged(remote)}, {remote, Staged(remote)});
    if !fellBack {
      LiveOkAcross(half, peer.trace, |old(peer.trace)|, old(peer.files), staged, remote, bytes);
    }
  }

  lemma StagingLeavesLive(half: seq<Files>, from: nat, before: Files, remote: RemotePath)
    requires from < |half| && Confined(half, from, before, {Staged(remote)})
    ensures Lookup(half[|half| - 1], remote) == Lookup(before, remote)
  {
    StagedIsNotLive(remote);
    assert SameExcept(before, half[|half| - 1], {Staged(remote)});
  }

  /** Staging works, the target is busy, and the write in place stops before its first byte. */
  function CutOffPlan(): nat -> Fault {
    (k: nat) => if k < 5 then Fault(true, true, true, false, true, None, 0, FILE_MODE)
                else if k == 5 then Fault(false, false, true, true, true, None, 0, FILE_MODE)
                else Fault(true, false, true, false, true, Some(0), 0, FILE_MODE)
  }

  /** A whole push under that plan falls back, is cut off there, and leaves a live file that is neither the old one nor the payload. */
  method FallbackRunCanTear(remote: RemotePath, was: Entry, payload: Bytes) returns (peer: Peer, r: Result<Published, PushError>)
    requires SafePath(remote) && payload != [] && was.content != []
    ensures fresh(peer) && peer.Valid() && peer.plan == CutOffPlan() && peer.clock >= 7
    ensures |peer.trace| > 0 && peer.trace[0] == map[remote := was] && r == Err(WriteFailed)
    ensures !LiveOk(peer.trace[0], peer.files, remote, payload)
  {
    peer := new Peer(map[remote := was], CutOffPlan());
    ghost var before := peer.files;
    assert BusyThenCutOff(peer, 5);
    hide AlwaysLiveOk, Confined, SafePath;
    var fellBack;
    r, fellBack := PushSnapshot(peer, true, None, remote, Some(payload));
    assert AfterDd(before, remote, payload, peer.plan(6))[remote].content == [];
  }
}
