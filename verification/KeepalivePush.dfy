/**
 * Converging a peer onto the master's access token, and proving it works: the
 * operations that run on the peer, and the order the guards are demanded in.
 */
module KeepalivePush {
  import opened Wrappers
  import opened Json
  import opened RemotePeer
  import opened KeepaliveGuards
  import Push = SnapshotPush

  function ProbePath(remote: RemotePath): RemotePath { remote.(name := PROBE_NAME) }

  /** Stamps end in Z, as the source formats them. */
  function BackupPath(remote: RemotePath, stamp: string): RemotePath {
    remote.(name := remote.name + ".bak-" + stamp + "Z")
  }

  lemma PathsApart(remote: RemotePath, stamp: string)
    ensures Staged(remote) != remote && BackupPath(remote, stamp) != remote
    ensures BackupPath(remote, stamp) != Staged(remote)
    ensures ProbePath(remote) != Staged(remote) && ProbePath(remote) != BackupPath(remote, stamp)
  {
    var staged, backup := Staged(remote).name, BackupPath(remote, stamp).name;
    assert staged[|remote.name| + 1] == 's' && backup[|remote.name| + 1] == 'b';
    assert staged[|staged| - 1] == 'p' && backup[|backup| - 1] == 'Z' && PROBE_NAME[|PROBE_NAME| - 1] == 'y';
    assert |staged| > |remote.name| && |backup| > |remote.name|;
  }

  // ---- What the probe says about the credential -------------------------------

  datatype ProbeState = Absent | Described(expiresMs: int, access: Option<string>, refresh: Option<string>)

  predicate Falsy(j: Json) {
    match j
    case Null => true
    case Bool(b) => !b
    case Int(n) => n == 0
    case Float(r) => r == 0.0
    case NonFinite(_) => false
    case Str(s) => s == ""
    case Arr(items) => items == []
    case Obj(fields) => fields == []
  }

  /** Nothing to fingerprint, a token, or (outer None) a value the probe chokes on. */
  function Fingerprint(j: Option<Json>): Option<Option<string>> {
    if j.None? || Falsy(j.value) then Some(None)
    else if j.value.Str? then Some(Some(j.value.text))
    else None
  }

  /** A whole number of milliseconds, 0 for what is no number, or None for an infinite one, which the probe chokes on. */
  function ExpiryOf(j: Option<Json>, codec: Codec): Option<int> {
    if j.None? then Some(0)
    else match j.value
      case Int(n) => Some(n)
      case Bool(b) => Some(if b then 1 else 0)
      case Float(r) => Some(Trunc(r))
      case NonFinite(_) => None
      case Str(s) => Some(codec.intOf(s).GetOr(0))
      case _ => Some(0)
  }

  function Document(files: Files, remote: RemotePath, codec: Codec): Option<Json> {
    if remote in files then codec.parse(files[remote].content) else None
  }

  /** The token block, or the document itself when it is stored unwrapped. */
  function BlockOf(fields: Fields): Json {
    var inner := Get(fields, "claudeAiOauth");
    if inner.Some? then inner.value else Obj(fields)
  }

  /** What a whole probe prints in `state` mode; None when it dies on the document. */
  function ProbeRead(files: Files, remote: RemotePath, codec: Codec): Option<ProbeState> {
    var doc := Document(files, remote, codec);
    if doc.None? then Some(Absent)
    else if !doc.value.Obj? then None
    else
      var block := BlockOf(doc.value.fields);
      if !block.Obj? then Some(Absent)
      else
        var access, refresh := Fingerprint(Get(block.fields, "accessToken")), Fingerprint(Get(block.fields, "refreshToken"));
        var expiry := ExpiryOf(Get(block.fields, "expiresAt"), codec);
        if expiry.None? || access.None? || refresh.None? then None
        else Some(Described(expiry.value, access.value, refresh.value))
  }

  /** The access token the peer would authenticate with. */
  function LiveToken(files: Files, remote: RemotePath, codec: Codec): Option<string> {
    var doc := Document(files, remote, codec);
    if doc.Some? && doc.value.Obj? && BlockOf(doc.value.fields).Obj? then
      var token := AsStr(Get(BlockOf(doc.value.fields).fields, "accessToken"));
      if NonEmpty(token) then token else None
    else None
  }

  predicate ProbeLanded(files: Files, remote: RemotePath, codec: Codec) {
    ProbePath(remote) in files && files[ProbePath(remote)].content == codec.probe
  }

  predicate Downgrades(state: ProbeState, payload: Payload, now: real) {
    state.Described? && SecondsLeft(Some(payload.expiresMs), now) <= 0 < SecondsLeft(Some(state.expiresMs), now)
  }

  /**
   * Nothing to do because the peer already holds
   * the token, or nothing allowed because the push would put a dead credential
   * over a live one.
   */
  predicate MustStay(files: Files, remote: RemotePath, payload: Payload, force: bool, now: real, codec: Codec) {
    var state := ProbeRead(files, remote, codec);
    && state.Some?
    && (Downgrades(state.value, payload, now) || (!force && LiveToken(files, remote, codec) == Some(payload.access)))
  }

  ghost predicate LiveUntouched(trace: seq<Files>, from: nat, before: Files, remote: RemotePath) {
    forall k :: from <= k < |trace| ==> Lookup(trace[k], remote) == Lookup(before, remote)
  }

  // ---- Operations on the peer -----------------------------------------------------

  /** The operation took place and said so. */
  predicate Done(f: Fault) { f.happens && f.reports }

  /** Written under this fault, the probe does not arrive whole. */
  predicate Torn(f: Fault, codec: Codec) { f.cut.Some? && Prefix(codec.probe, f.cut.value) != codec.probe }

  method EnsureRemoteDir(peer: Peer) returns (ok: bool)
    requires peer.Valid()
    modifies peer
    ensures peer.Valid() && old(peer.trace) <= peer.trace && old(peer.clock) <= peer.clock
    ensures Push.Confined(peer.trace, |old(peer.trace)|, old(peer.files), {}) && peer.files == old(peer.files)
    ensures ok ==> peer.clock == old(peer.clock) + 2
    ensures Done(peer.plan(old(peer.clock))) && Done(peer.plan(old(peer.clock) + 1)) ==> ok
  {
    ok := peer.Command();
    if ok { ok := peer.Command(); }
  }

  method InstallProbe(peer: Peer, remote: RemotePath, codec: Codec) returns (ok: bool)
    requires peer.Valid()
    modifies peer
    ensures peer.Valid() && old(peer.trace) < peer.trace && old(peer.clock) <= peer.clock
    ensures Push.Confined(peer.trace, |old(peer.trace)|, old(peer.files), {ProbePath(remote)})
    ensures ok ==> peer.clock == old(peer.clock) + 2 && (ProbeLanded(peer.files, remote, codec) <==> !Torn(peer.plan(old(peer.clock)), codec))
    ensures Done(peer.plan(old(peer.clock))) && Done(peer.plan(old(peer.clock) + 1)) ==> ok
  {
    ok := peer.Dd(ProbePath(remote), codec.probe);
    if ok { ok := peer.Chmod(ProbePath(remote), PROBE_MODE); }
  }

  /**
   * What a run takes the peer to hold: a probe that landed whole tells the truth
   * or fails; one that was cut short may also exit zero without a word, which
   * reads as an absent credential.
   */
  function Seen(files: Files, remote: RemotePath, f: Fault, codec: Codec): Option<ProbeState> {
    if !Done(f) then None
    else if ProbeLanded(files, remote, codec) || f.speaks then ProbeRead(files, remote, codec)
    else Some(Absent)
  }

  /** Run the probe to describe the credential; it changes nothing. */
  method ReadRemoteState(peer: Peer, remote: RemotePath, codec: Codec) returns (r: Option<ProbeState>)
    requires peer.Valid()
    modifies peer
    ensures peer.Valid() && peer.files == old(peer.files) && peer.trace == old(peer.trace) + [peer.files]
    ensures peer.clock == old(peer.clock) + 1
    ensures r == Seen(peer.files, remote, peer.plan(old(peer.clock)), codec)
    ensures r.None? || r == ProbeRead(peer.files, remote, codec) || (r == Some(Absent) && !ProbeLanded(peer.files, remote, codec))
  {
    var speaks := ProbeLanded(peer.files, remote, codec) || peer.plan(peer.clock).speaks;
    var ok := peer.Command();
    r := if !ok then None else if speaks then ProbeRead(peer.files, remote, codec) else Some(Absent);
  }

  /** The status the peer's own copy receives, when one was received at all. */
  method VerifyRemoteToken(peer: Peer, remote: RemotePath, codec: Codec, status: nat -> Option<nat>) returns (r: Option<nat>)
    requires peer.Valid()
    modifies peer
    ensures peer.Valid() && peer.files == old(peer.files) && peer.trace == old(peer.trace) + [peer.files]
    ensures old(peer.clock) <= peer.clock
    ensures r.Some? ==> r == status(old(peer.clock)) && LiveToken(peer.files, remote, codec).Some?
    ensures Done(peer.plan(old(peer.clock))) && ProbeLanded(peer.files, remote, codec) && LiveToken(peer.files, remote, codec).Some?
            ==> r == status(old(peer.clock))
  {
    var at := peer.clock;
    var speaks := ProbeLanded(peer.files, remote, codec) || peer.plan(at).speaks;
    var ok := peer.Command();
    r := if ok && speaks && LiveToken(peer.files, remote, codec).Some? then status(at) else None;
  }

  /** Copy the current credential aside; nothing to copy, or a peer that does not answer, means no backup. */
  method BackupRemote(peer: Peer, remote: RemotePath, stamp: string) returns (r: Result<Option<RemotePath>, KeepaliveError>)
    requires peer.Valid()
    modifies peer
    ensures peer.Valid() && old(peer.trace) < peer.trace && old(peer.clock) <= peer.clock
    ensures Push.Confined(peer.trace, |old(peer.trace)|, old(peer.files), {BackupPath(remote, stamp)})
    ensures r.Ok? && r.value.Some? ==>
              && r.value.value == BackupPath(remote, stamp)
              && remote in old(peer.files) && BackupPath(remote, stamp) in peer.files
              && peer.files[BackupPath(remote, stamp)].content == old(peer.files)[remote].content
    ensures r.Err? ==> r.error == BackupFailed
    ensures Push.SafePath(BackupPath(remote, stamp)) && (forall k :: old(peer.clock) <= k ==> Faultless(peer.plan(k)))
            ==> r.Ok? && (remote in old(peer.files) ==> r.value.Some?)
  {
    var exists_ := peer.Exists(remote);
    if !exists_ { return Ok(None); }
    var backup := BackupPath(remote, stamp);
    if !Push.SafePath(backup) { return Err(BackupFailed); }
    var ok := peer.Cp(remote, backup);
    if !ok { return Err(BackupFailed); }
    ok := peer.Chmod(backup, FILE_MODE);
    if !ok { return Err(BackupFailed); }
    r := Ok(Some(backup));
  }

  // ---- The guarded push ------------------------------------------------------------

  datatype Action = AlreadyCurrent | Pushed

  datatype Record = Record(action: Action, backup: Option<RemotePath>, status: nat, secondsLeft: int)

  /** A push that went through left the peer holding exactly the master's token. */
  lemma PushedTokenIsLive(files: Files, remote: RemotePath, master: Option<Json>, healthy: bool, minValidity: int, now: real, codec: Codec)
    requires BuildPayload(master, healthy, minValidity, now, codec).Ok?
    requires RoundTrips(codec, BuildPayload(master, healthy, minValidity, now, codec).value.artifact)
    requires remote in files && files[remote].content == BuildPayload(master, healthy, minValidity, now, codec).value.bytes
    ensures LiveToken(files, remote, codec) == Some(BuildPayload(master, healthy, minValidity, now, codec).value.access)
    ensures ProbeRead(files, remote, codec).Some?
  {
    var payload := BuildPayload(master, healthy, minValidity, now, codec).value;
    assert codec.parse(codec.render(payload.artifact)) == Some(payload.artifact);
    var inner := payload.artifact.fields[0].value.fields;
    assert Get(payload.artifact.fields, "claudeAiOauth") == Some(Obj(inner));
    assert Get(inner, "accessToken") == Some(Str(payload.access));
    assert Get(inner[3..], "refreshToken") == None && inner[2..][1..] == inner[3..] && inner[1..][1..] == inner[2..];
    assert Get(inner[1..], "refreshToken") == None;
    assert inner[1] == Field("expiresAt", Int(payload.expiresMs)) && inner[1..][0] == inner[1];
    assert "accessToken"[0] == 'a' && "expiresAt"[0] == 'e';
    assert Get(inner, "expiresAt") == Get(inner[1..], "expiresAt") == Some(Int(payload.expiresMs));
  }

  /** A stretch that leaves the live path alone, then one that keeps it acceptable. */
  lemma LiveOkAfter(half: seq<Files>, full: seq<Files>, from: nat, before: Files, mid: Files, remote: RemotePath, payload: Bytes)
    requires from <= |half| && half <= full && half != [] && half[|half| - 1] == mid && (from == |half| ==> mid == before)
    requires LiveUntouched(half, from, before, remote)
    requires Push.AlwaysLiveOk(full, |half|, mid, remote, payload)
    ensures Push.AlwaysLiveOk(full, from, before, remote, payload)
  {
    assert Lookup(mid, remote) == Lookup(before, remote);
    forall k | from <= k < |full| ensures Push.LiveOk(before, full[k], remote, payload) {
      if k < |half| { assert full[k] == half[k]; } else { assert Push.LiveOk(mid, full[k], remote, payload); }
    }
  }

  /** And the other way round. */
  lemma LiveOkBefore(half: seq<Files>, full: seq<Files>, from: nat, before: Files, mid: Files, remote: RemotePath, payload: Bytes)
    requires from <= |half| && half <= full && half != [] && half[|half| - 1] == mid && (from == |half| ==> mid == before)
    requires Push.AlwaysLiveOk(half, from, before, remote, payload)
    requires LiveUntouched(full, |half|, mid, remote)
    ensures Push.AlwaysLiveOk(full, from, before, remote, payload)
  {
    forall k | from <= k < |full| ensures Push.LiveOk(before, full[k], remote, payload) {
      if k < |half| {
        assert full[k] == half[k] && Push.LiveOk(before, half[k], remote, payload);
      } else {
        assert Lookup(full[k], remote) == Lookup(mid, remote);
        assert from < |half| ==> Push.LiveOk(before, half[|half| - 1], remote, payload);
      }
    }
  }

  lemma ConfinedElsewhere(trace: seq<Files>, from: nat, before: Files, touched: set<RemotePath>, remote: RemotePath)
    requires Push.Confined(trace, from, before, touched) && remote !in touched
    ensures LiveUntouched(trace, from, before, remote)
  {
    forall k | from <= k < |trace| ensures Lookup(trace[k], remote) == Lookup(before, remote) {
      assert SameExcept(before, trace[k], touched);
    }
  }

  /**
   * Back up what is there, then push; the backup keeps the content the push
   * replaced, and unless the push fell back the live path is never torn.
   */
  method Replace(peer: Peer, remote: RemotePath, bytes: Bytes, localAbsolute: bool, stamp: string)
      returns (r: Result<Option<RemotePath>, KeepaliveError>, fellBack: bool)
    requires peer.Valid()
    modifies peer
    ensures peer.Valid() && old(peer.trace) < peer.trace && old(peer.clock) <= peer.clock
    ensures Push.Confined(peer.trace, |old(peer.trace)|, old(peer.files), {BackupPath(remote, stamp), remote, Staged(remote)})
    ensures fellBack ==> Push.BusyBetween(peer, old(peer.clock), peer.clock)
    ensures !fellBack ==> Push.AlwaysLiveOk(peer.trace, |old(peer.trace)|, old(peer.files), remote, bytes)
    ensures r.Ok? ==> Lookup(peer.files, remote) == Some(Entry(bytes, FILE_MODE))
    ensures r.Ok? && r.value.Some? ==>
              && r.value.value == BackupPath(remote, stamp) && remote in old(peer.files)
              && BackupPath(remote, stamp) in peer.files
              && peer.files[BackupPath(remote, stamp)].content == old(peer.files)[remote].content
    ensures r != Err(PeerFailed)
    ensures localAbsolute && Push.SafePath(remote) && Push.SafePath(BackupPath(remote, stamp))
            && (forall k :: old(peer.clock) <= k ==> Faultless(peer.plan(k)))
            ==> r.Ok? && !fellBack && (remote in old(peer.files) ==> r.value.Some?)
  {
    PathsApart(remote, stamp);
    var backup := BackupPath(remote, stamp);
    fellBack := false;
    r := BackupRemote(peer, remote, stamp);
    ghost var mid, half := peer.files, peer.trace;
    ConfinedElsewhere(half, |old(peer.trace)|, old(peer.files), {backup}, remote);
    if r.Ok? {
      var published;
      published, fellBack := Push.PushSnapshot(peer, localAbsolute, None, remote, Some(bytes));
      if published.Err? { r := Err(PushFailed(published.error)); }
      assert Lookup(peer.files, backup) == Lookup(mid, backup) by {
        if half != peer.trace {
          assert Push.Confined(peer.trace, |half|, mid, {remote, Staged(remote)});
          assert SameExcept(mid, peer.trace[|peer.trace| - 1], {remote, Staged(remote)});
        }
      }
    }
    Push.ConfinedAcross(half, peer.trace, |old(peer.trace)|, old(peer.files), mid, {backup}, {remote, Staged(remote)});
    assert {backup} + {remote, Staged(remote)} == {backup, remote, Staged(remote)};
    if !fellBack { LiveOkAfter(half, peer.trace, |old(peer.trace)|, old(peer.files), mid, remote, bytes); }
  }

  /** Whether a run of this payload has something to send. */
  predicate NeedsPush(files: Files, remote: RemotePath, payload: Payload, force: bool, codec: Codec) {
    force || LiveToken(files, remote, codec) != Some(payload.access)
  }

  /** The peer's credential can be described, and the push, if one is needed, is no downgrade. */
  predicate MayConverge(files: Files, remote: RemotePath, payload: Payload, force: bool, now: real, codec: Codec) {
    var state := ProbeRead(files, remote, codec);
    state.Some? && (NeedsPush(files, remote, payload, force, codec) ==> !Downgrades(state.value, payload, now))
  }

  /** A probe that speaks names the token that is live, so comparing its answer is comparing the tokens. */
  lemma ProbeNamesTheLiveToken(files: Files, remote: RemotePath, access: string, codec: Codec)
    requires access != "" && ProbeRead(files, remote, codec).Some?
    ensures var state := ProbeRead(files, remote, codec).value;
            (state.Described? && state.access == Some(access)) <==> LiveToken(files, remote, codec) == Some(access)
  {
  }

  /** The report calls for a push. */
  predicate Wants(state: ProbeState, payload: Payload, force: bool) {
    force || !(state.Described? && state.access == Some(payload.access))
  }

  /** The report calls for one, and does not forbid it. */
  predicate Pushes(seen: Option<ProbeState>, payload: Payload, force: bool, now: real) {
    seen.Some? && Wants(seen.value, payload, force) && !Downgrades(seen.value, payload, now)
  }

  /** Paths the shell takes as they are, and no fault from here on. */
  ghost predicate Open(peer: Peer, since: nat, remote: RemotePath, localAbsolute: bool, stamp: string) {
    && localAbsolute && Push.SafePath(remote) && Push.SafePath(BackupPath(remote, stamp))
    && (forall k :: since <= k ==> Faultless(peer.plan(k)))
  }

  /** Decide and, where it is needed and allowed, replace: by what the probe reported, whatever that is worth. */
  method Update(peer: Peer, remote: RemotePath, payload: Payload, localAbsolute: bool, force: bool, now: real, stamp: string, codec: Codec)
      returns (r: Result<(Action, Option<RemotePath>), KeepaliveError>, fellBack: bool)
    requires peer.Valid() && payload.access != ""
    modifies peer
    ensures peer.Valid() && old(peer.trace) < peer.trace && old(peer.clock) <= peer.clock
    ensures Push.Confined(peer.trace, |old(peer.trace)|, old(peer.files), {BackupPath(remote, stamp), remote, Staged(remote)})
    ensures fellBack ==> Push.BusyBetween(peer, old(peer.clock), peer.clock)
    ensures !fellBack ==> Push.AlwaysLiveOk(peer.trace, |old(peer.trace)|, old(peer.files), remote, payload.bytes)
    ensures r.Ok? && r.value.0 == Pushed ==> Lookup(peer.files, remote) == Some(Entry(payload.bytes, FILE_MODE))
    ensures r.Ok? && r.value.0 == AlreadyCurrent ==>
              r.value.1 == None && peer.files == old(peer.files)
              && LiveToken(peer.files, remote, codec) == Some(payload.access) && ProbeRead(peer.files, remote, codec).Some?
    ensures r.Ok? && r.value.1.Some? ==>
              && r.value.1.value == BackupPath(remote, stamp) && remote in old(peer.files)
              && BackupPath(remote, stamp) in peer.files
              && peer.files[BackupPath(remote, stamp)].content == old(peer.files)[remote].content
    ensures r != Err(PeerFailed)
    ensures var seen := Seen(old(peer.files), remote, peer.plan(old(peer.clock)), codec);
            && (seen.None? ==> r == Err(ProbeFailed))
            && (seen.Some? && !Wants(seen.value, payload, force) ==> r == Ok((AlreadyCurrent, None)))
            && (seen.Some? && Wants(seen.value, payload, force) && Downgrades(seen.value, payload, now) ==> r == Err(Downgrade))
            && (!Pushes(seen, payload, force, now) ==> !fellBack && LiveUntouched(peer.trace, |old(peer.trace)|, old(peer.files), remote))
            && (Pushes(seen, payload, force, now) && Open(peer, old(peer.clock) + 1, remote, localAbsolute, stamp) ==>
                  r.Ok? && !fellBack && r.value.0 == Pushed && (remote in old(peer.files) ==> r.value.1.Some?))
  {
    PathsApart(remote, stamp);
    fellBack := false;
    if ProbeRead(peer.files, remote, codec).Some? { ProbeNamesTheLiveToken(peer.files, remote, payload.access, codec); }
    hide ProbeRead, LiveToken, ProbeLanded;
    var state := ReadRemoteState(peer, remote, codec);
    ghost var half := peer.trace;
    if state.None? { return Err(ProbeFailed), fellBack; }
    var current := state.value.Described? && state.value.access == Some(payload.access);
    if current && !force { return Ok((AlreadyCurrent, None)), fellBack; }
    if Downgrades(state.value, payload, now) { return Err(Downgrade), fellBack; }
    var saved;
    saved, fellBack := Replace(peer, remote, payload.bytes, localAbsolute, stamp);
    if !fellBack { LiveOkAfter(half, peer.trace, |old(peer.trace)|, old(peer.files), old(peer.files), remote, payload.bytes); }
    if saved.Err? { return Err(saved.error), fellBack; }
    r := Ok((Pushed, saved.value));
  }

  /** The part of a run between installing the probe and removing it. */
  method Converge(peer: Peer, remote: RemotePath, payload: Payload, localAbsolute: bool, force: bool, now: real, stamp: string, codec: Codec, status: nat -> Option<nat>)
      returns (r: Result<Record, KeepaliveError>, fellBack: bool)
    requires peer.Valid() && payload.access != "" && remote.name != PROBE_NAME
    modifies peer
    ensures peer.Valid() && old(peer.trace) < peer.trace && old(peer.clock) <= peer.clock
    ensures Push.Confined(peer.trace, |old(peer.trace)|, old(peer.files), {BackupPath(remote, stamp), remote, Staged(remote)})
    ensures fellBack ==> Push.BusyBetween(peer, old(peer.clock), peer.clock)
    ensures !fellBack ==> Push.AlwaysLiveOk(peer.trace, |old(peer.trace)|, old(peer.files), remote, payload.bytes)
    ensures r.Ok? ==> r.value.status == VERIFY_OK && r.value.secondsLeft == payload.secondsLeft
    ensures r.Ok? && r.value.action == Pushed ==> Lookup(peer.files, remote) == Some(Entry(payload.bytes, FILE_MODE))
    ensures r.Ok? && r.value.action == AlreadyCurrent ==>
              r.value.backup == None && LiveToken(peer.files, remote, codec) == Some(payload.access) && ProbeRead(peer.files, remote, codec).Some?
    ensures r.Ok? && r.value.backup.Some? ==>
              && r.value.backup.value == BackupPath(remote, stamp) && remote in old(peer.files)
              && BackupPath(remote, stamp) in peer.files
              && peer.files[BackupPath(remote, stamp)].content == old(peer.files)[remote].content
    ensures r != Err(PeerFailed)
    ensures var seen := Seen(old(peer.files), remote, peer.plan(old(peer.clock)), codec);
            && (!Pushes(seen, payload, force, now) ==> LiveUntouched(peer.trace, |old(peer.trace)|, old(peer.files), remote))
            && (Pushes(seen, payload, force, now) && Open(peer, old(peer.clock) + 1, remote, localAbsolute, stamp) ==>
                  !fellBack && Lookup(peer.files, remote) == Some(Entry(payload.bytes, FILE_MODE)))
            && (seen.Some? && (Wants(seen.value, payload, force) ==> !Downgrades(seen.value, payload, now))
                && Clear(peer, old(peer.clock), remote, localAbsolute, stamp, status)
                && SentTokenReads(remote, payload, codec) && ProbeLanded(old(peer.files), remote, codec)
                ==> r.Ok? && !fellBack && (r.value.action == Pushed <==> Wants(seen.value, payload, force))
                    && (r.value.action == Pushed && remote in old(peer.files) ==> r.value.backup.Some?))
  {
    PathsApart(remote, stamp);
    ghost var before := peer.files;
    hide ProbeRead, LiveToken, Seen, Wants, Downgrades;
    var updated;
    updated, fellBack := Update(peer, remote, payload, localAbsolute, force, now, stamp, codec);
    ghost var settled, half := peer.files, peer.trace;
    assert Lookup(settled, ProbePath(remote)) == Lookup(before, ProbePath(remote)) by {
      assert SameExcept(before, half[|half| - 1], {BackupPath(remote, stamp), remote, Staged(remote)});
    }
    assert ProbeLanded(settled, remote, codec) == ProbeLanded(before, remote, codec);
    hide ProbeLanded;
    if updated.Err? { return Err(updated.error), fellBack; }
    var code := VerifyRemoteToken(peer, remote, codec, status);
    QuietStep(half, peer.trace, |old(peer.trace)|, old(peer.files), settled, remote, payload.bytes, {BackupPath(remote, stamp), remote, Staged(remote)});
    if code.None? { return Err(Unverifiable), fellBack; }
    if code.value != VERIFY_OK { return Err(Refused(code.value)), fellBack; }
    r := Ok(Record(updated.value.0, updated.value.1, code.value, payload.secondsLeft));
  }

  /** A step that changes no file keeps whatever held of every state before it. */
  lemma QuietStep(half: seq<Files>, full: seq<Files>, from: nat, before: Files, settled: Files, remote: RemotePath, payload: Bytes, touched: set<RemotePath>)
    requires from < |half| && full == half + [settled] && half[|half| - 1] == settled
    ensures Push.Confined(half, from, before, touched) ==> Push.Confined(full, from, before, touched)
    ensures Push.AlwaysLiveOk(half, from, before, remote, payload) ==> Push.AlwaysLiveOk(full, from, before, remote, payload)
    ensures LiveUntouched(half, from, before, remote) ==> LiveUntouched(full, from, before, remote)
  {
    assert forall k :: from <= k < |full| ==> full[k] == half[if k < |half| then k else |half| - 1];
  }

  /** Nothing is in the way: open, and a server that accepts. */
  ghost predicate Clear(peer: Peer, since: nat, remote: RemotePath, localAbsolute: bool, stamp: string, status: nat -> Option<nat>) {
    Open(peer, since, remote, localAbsolute, stamp) && forall k: nat :: status(k) == Some(VERIFY_OK)
  }

  /** Wherever the payload's bytes are live, a reader finds the token in them. */
  ghost predicate SentTokenReads(remote: RemotePath, payload: Payload, codec: Codec) {
    forall files: Files :: Lookup(files, remote) == Some(Entry(payload.bytes, FILE_MODE)) ==> LiveToken(files, remote, codec).Some?
  }

  /** What the local guards decide before the peer is spoken to at all. */
  function Admit(master: Option<Json>, healthy: bool, minValidity: int, now: real, codec: Codec): Result<Payload, KeepaliveError> {
    if !NonEmpty(ReadTokens(master).refresh) then Err(NotRefreshHolder)
    else BuildPayload(master, healthy, minValidity, now, codec)
  }

  /** An admitted payload meets the floor and holds refresh material at no depth; with a positive floor it downgrades nothing. */
  lemma AdmittedPayloadIsFit(master: Option<Json>, healthy: bool, minValidity: int, now: real, codec: Codec)
    requires Admit(master, healthy, minValidity, now, codec).Ok?
    ensures var p := Admit(master, healthy, minValidity, now, codec).value;
            && minValidity <= p.secondsLeft == SecondsLeft(Some(p.expiresMs), now)
            && p.bytes == codec.render(p.artifact)
            && NonEmpty(ReadTokens(master).refresh)
            && ReadTokens(master).access == Some(p.access) && ReadTokens(master).expiresMs == Some(p.expiresMs)
            && (forall q: Path :: !Occurs(p.artifact, q))
            && (minValidity >= 1 ==> forall state: ProbeState :: !Downgrades(state, p, now))
  {
    var p := Admit(master, healthy, minValidity, now, codec).value;
    MintedArtifactIsClean(p.access, p.expiresMs, Scopes(master));
  }

  ghost predicate DowngradeAdmitted(master: Option<Json>, now: real, state: ProbeState, minValidity: int, codec: Codec) {
    var admitted := Admit(master, true, minValidity, now, codec);
    admitted.Ok? && Downgrades(state, admitted.value, now)
  }

  /** A moment in seconds, and half a second and nine seconds later in milliseconds. */
  const PRESENT: real := 1700000000.0
  const PRESENT_AND_A_HALF_MS: int := 1700000000500
  const NINE_SECONDS_LATER_MS: int := 1700000009000

  /** A master whose token is still good at that moment, but for no whole second. */
  function ShortMaster(): Json {
    Obj([Field("claudeAiOauth", Obj([Field("accessToken", Str("a")), Field("refreshToken", Str("r")), Field("expiresAt", Int(PRESENT_AND_A_HALF_MS))]))])
  }

  lemma ShortMasterReads()
    ensures ReadTokens(Some(ShortMaster())) == Tokens(Some("a"), Some("r"), Some(PRESENT_AND_A_HALF_MS))
  {
    var inner := [Field("accessToken", Str("a")), Field("refreshToken", Str("r")), Field("expiresAt", Int(PRESENT_AND_A_HALF_MS))];
    assert inner[1..][1..] == inner[2..] && inner[1..][0] == inner[1] && inner[2..][0] == inner[2];
    assert Get(inner, "accessToken") == Some(Str("a"));
    assert Get(inner[1..], "refreshToken") == Some(Str("r"));
    assert Get(inner, "refreshToken") == Some(Str("r"));
    assert Get(inner[2..], "expiresAt") == Some(Int(PRESENT_AND_A_HALF_MS));
    assert Get(inner[1..], "expiresAt") == Some(Int(PRESENT_AND_A_HALF_MS));
  }

  /** A master that holds both tokens, with validity enough for the floor, is always admitted. */
  lemma FitMasterIsAdmitted(master: Option<Json>, minValidity: int, now: real, codec: Codec, t: Tokens)
    requires ReadTokens(master) == t && NonEmpty(t.access) && NonEmpty(t.refresh) && t.expiresMs.Some?
    requires minValidity <= SecondsLeft(t.expiresMs, now)
    ensures Admit(master, true, minValidity, now, codec).Ok?
    ensures Admit(master, true, minValidity, now, codec).value.expiresMs == t.expiresMs.value
  {
    MintedArtifactIsClean(t.access.value, t.expiresMs.value, Scopes(master));
    hide ReadTokens, Scopes, SecondsLeft, RefreshPaths, Occurs, Artifact;
  }

  /**
   * The downgrade guard depends on what the probe reports, and a probe cut
   * short can report nothing at all. Whether that can matter is decided by the
   * floor alone: below one second some admitted payload would downgrade some
   * peer, from one second up none does.
   */
  lemma FloorDecidesDowngrade(minValidity: int, codec: Codec)
    ensures minValidity < 1 <==> exists master, now, state :: DowngradeAdmitted(master, now, state, minValidity, codec)
  {
    if minValidity < 1 {
      ShortMasterReads();
      hide ReadTokens, ShortMaster, Admit;
      assert SecondsLeft(Some(PRESENT_AND_A_HALF_MS), PRESENT) == 0 && SecondsLeft(Some(NINE_SECONDS_LATER_MS), PRESENT) == 9;
      FitMasterIsAdmitted(Some(ShortMaster()), minValidity, PRESENT, codec, Tokens(Some("a"), Some("r"), Some(PRESENT_AND_A_HALF_MS)));
      assert DowngradeAdmitted(Some(ShortMaster()), PRESENT, Described(NINE_SECONDS_LATER_MS, None, None), minValidity, codec);
    } else {
      forall master, now, state ensures !DowngradeAdmitted(master, now, state, minValidity, codec) {
        if Admit(master, true, minValidity, now, codec).Ok? {
          AdmittedPayloadIsFit(master, true, minValidity, now, codec);
        }
      }
    }
  }

  /** The live file is the payload itself, or already held its token. */
  predicate Converged(files: Files, remote: RemotePath, payload: Payload, codec: Codec) {
    || Lookup(files, remote) == Some(Entry(payload.bytes, FILE_MODE))
    || (LiveToken(files, remote, codec) == Some(payload.access) && ProbeRead(files, remote, codec).Some?)
  }

  lemma ReadingFollowsLive(before: Files, after: Files, remote: RemotePath, payload: Payload, force: bool, now: real, codec: Codec)
    requires Lookup(before, remote) == Lookup(after, remote)
    ensures MustStay(before, remote, payload, force, now, codec) == MustStay(after, remote, payload, force, now, codec)
    ensures LiveToken(before, remote, codec) == LiveToken(after, remote, codec)
    ensures ProbeRead(before, remote, codec) == ProbeRead(after, remote, codec)
    ensures MayConverge(before, remote, payload, force, now, codec) == MayConverge(after, remote, payload, force, now, codec)
    ensures NeedsPush(before, remote, payload, force, codec) == NeedsPush(after, remote, payload, force, codec)
  {
    assert Document(before, remote, codec) == Document(after, remote, codec);
  }

  lemma UntouchedAcross(half: seq<Files>, full: seq<Files>, from: nat, before: Files, mid: Files, remote: RemotePath, first: set<RemotePath>)
    requires from <= |half| && half <= full && half != [] && half[|half| - 1] == mid && remote !in first
    requires Push.Confined(half, from, before, first) && (from == |half| ==> mid == before)
    requires LiveUntouched(full, |half|, mid, remote)
    ensures LiveUntouched(full, from, before, remote)
  {
    if from < |half| { assert SameExcept(before, half[|half| - 1], first); }
    forall k | from <= k < |full| ensures Lookup(full[k], remote) == Lookup(before, remote) {
      if k < |half| { assert full[k] == half[k]; assert SameExcept(before, half[k], first); }
    }
  }

  /** Directory, then probe; nothing but the probe's own path is written. */
  method PrepareProbe(peer: Peer, remote: RemotePath, codec: Codec) returns (ok: bool)
    requires peer.Valid()
    modifies peer
    ensures peer.Valid() && old(peer.trace) <= peer.trace && old(peer.clock) <= peer.clock
    ensures |old(peer.trace)| == |peer.trace| ==> peer.files == old(peer.files)
    ensures ok ==> Push.SafePath(remote)
    ensures Push.Confined(peer.trace, |old(peer.trace)|, old(peer.files), {ProbePath(remote)})
    ensures ok ==> peer.clock == old(peer.clock) + 4 && (ProbeLanded(peer.files, remote, codec) <==> !Torn(peer.plan(old(peer.clock) + 2), codec))
    ensures Push.SafePath(remote) && (forall k :: old(peer.clock) <= k < old(peer.clock) + 4 ==> Done(peer.plan(k))) ==> ok
  {
    if !Push.SafePath(remote) { return false; }
    ok := EnsureRemoteDir(peer);
    ghost var half := peer.trace;
    if ok {
      ok := InstallProbe(peer, remote, codec);
    }
    Push.ConfinedAcross(half, peer.trace, |old(peer.trace)|, old(peer.files), old(peer.files), {}, {ProbePath(remote)});
    assert {} + {ProbePath(remote)} == {ProbePath(remote)};
  }

  /** A truthful report of a credential that must stay calls for no push; and a report that allows converging is such a report. */
  lemma TruthfulReports(files: Files, remote: RemotePath, payload: Payload, force: bool, now: real, codec: Codec)
    requires payload.access != ""
    ensures MustStay(files, remote, payload, force, now, codec) ==> !Pushes(ProbeRead(files, remote, codec), payload, force, now)
    ensures MayConverge(files, remote, payload, force, now, codec) ==>
              var state := ProbeRead(files, remote, codec);
              && state.Some? && (Wants(state.value, payload, force) ==> !Downgrades(state.value, payload, now))
              && (Wants(state.value, payload, force) <==> NeedsPush(files, remote, payload, force, codec))
  {
    if ProbeRead(files, remote, codec).Some? { ProbeNamesTheLiveToken(files, remote, payload.access, codec); }
  }

  /** Converge, and remove the probe whatever came of it. */
  method ConvergeThenTidy(peer: Peer, remote: RemotePath, payload: Payload, localAbsolute: bool, force: bool, now: real, stamp: string, codec: Codec, status: nat -> Option<nat>)
      returns (r: Result<Record, KeepaliveError>, fellBack: bool)
    requires peer.Valid() && remote.name != PROBE_NAME && payload.access != ""
    modifies peer
    ensures peer.Valid() && old(peer.trace) < peer.trace && old(peer.clock) <= peer.clock
    ensures fellBack ==> Push.BusyBetween(peer, old(peer.clock), peer.clock)
    ensures !fellBack ==> Push.AlwaysLiveOk(peer.trace, |old(peer.trace)|, old(peer.files), remote, payload.bytes)
    ensures Push.LastHappened(peer) ==> ProbePath(remote) !in peer.files
    ensures r.Ok? ==> r.value.status == VERIFY_OK
    ensures r.Ok? ==> Converged(peer.files, remote, payload, codec)
    ensures r.Ok? && r.value.backup.Some? ==>
              && remote in old(peer.files) && r.value.backup.value in peer.files
              && peer.files[r.value.backup.value].content == old(peer.files)[remote].content
    ensures r != Err(PeerFailed)
    ensures var seen := Seen(old(peer.files), remote, peer.plan(old(peer.clock)), codec);
            && (!Pushes(seen, payload, force, now) ==> LiveUntouched(peer.trace, |old(peer.trace)|, old(peer.files), remote))
            && (Pushes(seen, payload, force, now) && Open(peer, old(peer.clock) + 1, remote, localAbsolute, stamp) ==>
                  !fellBack && Lookup(peer.files, remote) == Some(Entry(payload.bytes, FILE_MODE)))
            && (seen.Some? && (Wants(seen.value, payload, force) ==> !Downgrades(seen.value, payload, now))
                && Clear(peer, old(peer.clock), remote, localAbsolute, stamp, status)
                && SentTokenReads(remote, payload, codec) && ProbeLanded(old(peer.files), remote, codec)
                ==> r.Ok? && !fellBack && (r.value.action == Pushed <==> Wants(seen.value, payload, force))
                    && (r.value.action == Pushed && remote in old(peer.files) ==> r.value.backup.Some?))
  {
    PathsApart(remote, stamp);
    hide ProbeRead, LiveToken, ProbeLanded, MustStay, MayConverge, NeedsPush, Clear, Open, SentTokenReads, Seen, Wants, Pushes;
    r, fellBack := Converge(peer, remote, payload, localAbsolute, force, now, stamp, codec, status);
    ghost var settled, half := peer.files, peer.trace;
    peer.Discard(ProbePath(remote));
    assert Lookup(peer.files, remote) == Lookup(settled, remote);
    assert LiveUntouched(peer.trace, |half|, settled, remote);
    if !fellBack { LiveOkBefore(half, peer.trace, |old(peer.trace)|, old(peer.files), settled, remote, payload.bytes); }
    ReadingFollowsLive(settled, peer.files, remote, payload, force, now, codec);
  }

  /** The run that began at operation `since` knows nothing of the credential and takes it to be absent: its probe was cut short and said nothing. */
  predicate Blind(peer: Peer, since: nat, codec: Codec) {
    Torn(peer.plan(since + 2), codec) && !peer.plan(since + 4).speaks
  }

  /** Paths the shell takes as they are, and no fault but whatever befalls the writing of the probe. */
  ghost predicate ProbeAloneSuffers(peer: Peer, since: nat, remote: RemotePath, localAbsolute: bool, stamp: string) {
    && localAbsolute && Push.SafePath(remote) && Push.SafePath(BackupPath(remote, stamp))
    && Done(peer.plan(since + 2)) && (forall k :: since <= k && k != since + 2 ==> Faultless(peer.plan(k)))
  }

  lemma OpenAfterProbe(peer: Peer, since: nat, remote: RemotePath, localAbsolute: bool, stamp: string)
    requires ProbeAloneSuffers(peer, since, remote, localAbsolute, stamp)
    ensures Open(peer, since + 5, remote, localAbsolute, stamp)
    ensures forall k :: since <= k < since + 5 ==> Done(peer.plan(k))
  {
  }

  /** The part of a run that speaks to the peer. */
  method RunAdmitted(peer: Peer, remote: RemotePath, payload: Payload, localAbsolute: bool, force: bool, now: real, stamp: string, codec: Codec, status: nat -> Option<nat>)
      returns (r: Result<Record, KeepaliveError>, fellBack: bool)
    requires peer.Valid() && remote.name != PROBE_NAME && payload.access != ""
    modifies peer
    ensures peer.Valid() && old(peer.trace) <= peer.trace && old(peer.clock) <= peer.clock
    ensures !Blind(peer, old(peer.clock), codec) && MustStay(old(peer.files), remote, payload, force, now, codec)
            ==> LiveUntouched(peer.trace, |old(peer.trace)|, old(peer.files), remote)
    ensures Blind(peer, old(peer.clock), codec) && ProbeAloneSuffers(peer, old(peer.clock), remote, localAbsolute, stamp)
            ==> !fellBack && Lookup(peer.files, remote) == Some(Entry(payload.bytes, FILE_MODE))
    ensures fellBack ==> Push.BusyBetween(peer, old(peer.clock), peer.clock)
    ensures !fellBack ==> Push.AlwaysLiveOk(peer.trace, |old(peer.trace)|, old(peer.files), remote, payload.bytes)
    ensures r != Err(PeerFailed) && Push.LastHappened(peer) ==> ProbePath(remote) !in peer.files
    ensures r.Ok? ==> r.value.status == VERIFY_OK && Converged(peer.files, remote, payload, codec)
    ensures SentTokenReads(remote, payload, codec) && Clear(peer, old(peer.clock), remote, localAbsolute, stamp, status)
            && MayConverge(old(peer.files), remote, payload, force, now, codec)
            ==> r.Ok? && !fellBack && (r.value.action == Pushed <==> NeedsPush(old(peer.files), remote, payload, force, codec))
                && (r.value.action == Pushed && remote in old(peer.files) ==> r.value.backup.Some?)
    ensures r.Ok? && r.value.backup.Some? ==>
              && remote in old(peer.files) && r.value.backup.value in peer.files
              && peer.files[r.value.backup.value].content == old(peer.files)[remote].content
  {
    hide ProbeRead, LiveToken, MustStay, MayConverge, NeedsPush, SentTokenReads, Push.SafePath, Push.AlwaysLiveOk, Push.LastHappened, Converged;
    fellBack := false;
    ghost var since := peer.clock;
    if ProbeAloneSuffers(peer, since, remote, localAbsolute, stamp) { OpenAfterProbe(peer, since, remote, localAbsolute, stamp); }
    var ok := PrepareProbe(peer, remote, codec);
    ClearLater(peer, since, peer.clock, remote, localAbsolute, stamp, status);
    hide Clear, Open;
    ghost var ready, half := peer.files, peer.trace;
    UntouchedAcross(half, half, |old(peer.trace)|, old(peer.files), ready, remote, {ProbePath(remote)});
    assert Lookup(ready, remote) == Lookup(old(peer.files), remote);
    StillAcceptable(half, |old(peer.trace)|, old(peer.files), remote, payload.bytes);
    if !ok { return Err(PeerFailed), fellBack; }
    ReadingFollowsLive(old(peer.files), ready, remote, payload, force, now, codec);
    TruthfulReports(ready, remote, payload, force, now, codec);
    r, fellBack := ConvergeThenTidy(peer, remote, payload, localAbsolute, force, now, stamp, codec, status);
    if !fellBack { LiveOkAfter(half, peer.trace, |old(peer.trace)|, old(peer.files), ready, remote, payload.bytes); }
    if LiveUntouched(peer.trace, |half|, ready, remote) {
      UntouchedAcross(half, peer.trace, |old(peer.trace)|, old(peer.files), ready, remote, {ProbePath(remote)});
    }
  }

  /**
   * One keepalive run. A refused run never speaks to the peer. An admitted one
   * never tears a live credential unless the push had to fall back, returns a
   * record only for a peer that answered 200 with the master's token live, and
   * reports no backup that is not the replaced content. Whatever else fails, it
   * leaves alone a credential that is current or that it would downgrade, unless
   * its probe was cut short and said nothing; if that is all that failed, the
   * credential is replaced. With nothing in the way it returns a record, pushing
   * exactly when the peer held another token.
   */
  method KeepalivePush(peer: Peer, remote: RemotePath, master: Option<Json>, healthy: bool, minValidity: int, localAbsolute: bool, force: bool, now: real, stamp: string, codec: Codec, status: nat -> Option<nat>)
      returns (r: Result<Record, KeepaliveError>, fellBack: bool)
    requires peer.Valid() && remote.name != PROBE_NAME
    modifies peer
    ensures peer.Valid() && old(peer.trace) <= peer.trace && old(peer.clock) <= peer.clock
    ensures var admitted := Admit(master, healthy, minValidity, now, codec);
            && (admitted.Err? ==> r == Err(admitted.error) && peer.trace == old(peer.trace))
            && (admitted.Ok? && !Blind(peer, old(peer.clock), codec) && MustStay(old(peer.files), remote, admitted.value, force, now, codec) ==>
                  LiveUntouched(peer.trace, |old(peer.trace)|, old(peer.files), remote))
            && (admitted.Ok? && (minValidity >= 1 || !Blind(peer, old(peer.clock), codec))
                && WouldDowngrade(old(peer.files), remote, admitted.value, now, codec) ==>
                  LiveUntouched(peer.trace, |old(peer.trace)|, old(peer.files), remote))
            && (admitted.Ok? && Blind(peer, old(peer.clock), codec) && ProbeAloneSuffers(peer, old(peer.clock), remote, localAbsolute, stamp) ==>
                  !fellBack && Lookup(peer.files, remote) == Some(Entry(admitted.value.bytes, FILE_MODE)))
            && (!fellBack && admitted.Ok? ==> Push.AlwaysLiveOk(peer.trace, |old(peer.trace)|, old(peer.files), remote, admitted.value.bytes))
            && (admitted.Ok? && r != Err(PeerFailed) && Push.LastHappened(peer) ==> ProbePath(remote) !in peer.files)
            && (r.Ok? ==> admitted.Ok? && r.value.status == VERIFY_OK)
            && (r.Ok? && RoundTrips(codec, admitted.value.artifact) ==>
                  LiveToken(peer.files, remote, codec) == Some(admitted.value.access) && ProbeRead(peer.files, remote, codec).Some?)
            && (admitted.Ok? && RoundTrips(codec, admitted.value.artifact) && Clear(peer, old(peer.clock), remote, localAbsolute, stamp, status)
                && MayConverge(old(peer.files), remote, admitted.value, force, now, codec)
                ==> r.Ok? && !fellBack && (r.value.action == Pushed <==> NeedsPush(old(peer.files), remote, admitted.value, force, codec))
                    && (r.value.action == Pushed && remote in old(peer.files) ==> r.value.backup.Some?))
    ensures fellBack ==> Push.BusyBetween(peer, old(peer.clock), peer.clock)
    ensures r.Ok? && r.value.backup.Some? ==>
              && remote in old(peer.files) && r.value.backup.value in peer.files
              && peer.files[r.value.backup.value].content == old(peer.files)[remote].content
  {
    hide ProbeRead, LiveToken, MayConverge, NeedsPush, SentTokenReads, Clear, Push.AlwaysLiveOk, Push.LastHappened, Converged, ProbeAloneSuffers, Blind, RoundTrips;
    fellBack := false;
    var admitted := Admit(master, healthy, minValidity, now, codec);
    if admitted.Err? { return Err(admitted.error), fellBack; }
    AdmittedTokenIsSent(master, healthy, minValidity, now, codec, remote);
    FloorForbidsDowngrade(peer.files, remote, master, healthy, minValidity, now, codec);
    hide Admit, Downgrades;
    r, fellBack := RunAdmitted(peer, remote, admitted.value, localAbsolute, force, now, stamp, codec, status);
    if r.Ok? && RoundTrips(codec, admitted.value.artifact) {
      ConvergedMeansLive(peer.files, remote, master, healthy, minValidity, now, codec);
    }
  }

  /** The peer's credential still works for a second or more, and this payload no longer does. */
  predicate WouldDowngrade(files: Files, remote: RemotePath, payload: Payload, now: real, codec: Codec) {
    var state := ProbeRead(files, remote, codec);
    state.Some? && Downgrades(state.value, payload, now)
  }

  lemma FloorForbidsDowngrade(files: Files, remote: RemotePath, master: Option<Json>, healthy: bool, minValidity: int, now: real, codec: Codec)
    requires Admit(master, healthy, minValidity, now, codec).Ok?
    ensures minValidity >= 1 ==> !WouldDowngrade(files, remote, Admit(master, healthy, minValidity, now, codec).value, now, codec)
  {
    AdmittedPayloadIsFit(master, healthy, minValidity, now, codec);
  }

  lemma StillAcceptable(trace: seq<Files>, from: nat, before: Files, remote: RemotePath, payload: Bytes)
    requires LiveUntouched(trace, from, before, remote)
    ensures Push.AlwaysLiveOk(trace, from, before, remote, payload)
  {
  }

  lemma ConvergedMeansLive(files: Files, remote: RemotePath, master: Option<Json>, healthy: bool, minValidity: int, now: real, codec: Codec)
    requires BuildPayload(master, healthy, minValidity, now, codec).Ok?
    requires RoundTrips(codec, BuildPayload(master, healthy, minValidity, now, codec).value.artifact)
    requires Converged(files, remote, BuildPayload(master, healthy, minValidity, now, codec).value, codec)
    ensures LiveToken(files, remote, codec) == Some(BuildPayload(master, healthy, minValidity, now, codec).value.access)
    ensures ProbeRead(files, remote, codec).Some?
  {
    if Lookup(files, remote) == Some(Entry(BuildPayload(master, healthy, minValidity, now, codec).value.bytes, FILE_MODE)) {
      PushedTokenIsLive(files, remote, master, healthy, minValidity, now, codec);
    }
  }

  lemma ClearLater(peer: Peer, since: nat, later: nat, remote: RemotePath, localAbsolute: bool, stamp: string, status: nat -> Option<nat>)
    requires since <= later
    ensures Clear(peer, since, remote, localAbsolute, stamp, status) ==> Clear(peer, later, remote, localAbsolute, stamp, status)
  {
  }

  lemma AdmittedTokenIsSent(master: Option<Json>, healthy: bool, minValidity: int, now: real, codec: Codec, remote: RemotePath)
    requires Admit(master, healthy, minValidity, now, codec).Ok?
    ensures var payload := Admit(master, healthy, minValidity, now, codec).value;
            && BuildPayload(master, healthy, minValidity, now, codec) == Ok(payload)
            && payload.access != "" && (RoundTrips(codec, payload.artifact) ==> SentTokenReads(remote, payload, codec))
  {
    var payload := Admit(master, healthy, minValidity, now, codec).value;
    if RoundTrips(codec, payload.artifact) {
      forall files: Files | Lookup(files, remote) == Some(Entry(payload.bytes, FILE_MODE)) ensures LiveToken(files, remote, codec).Some? {
        PushedTokenIsLive(files, remote, master, healthy, minValidity, now, codec);
      }
    }
  }

  /**
   * What a record ensures of the peer is all it takes: once the master's token
   * is live and can be read, every payload that master will ever be admitted
   * with finds its place taken, so that no later run has anything to write.
   */
  lemma RecordLeavesNothingToPush(files: Files, remote: RemotePath, master: Option<Json>, healthy: bool, minValidity: int, now: real, later: real, codec: Codec)
    requires Admit(master, healthy, minValidity, now, codec).Ok? && Admit(master, healthy, minValidity, later, codec).Ok?
    requires LiveToken(files, remote, codec) == Some(Admit(master, healthy, minValidity, now, codec).value.access)
    requires ProbeRead(files, remote, codec).Some?
    ensures var p := Admit(master, healthy, minValidity, later, codec).value;
            MustStay(files, remote, p, false, later, codec) && MayConverge(files, remote, p, false, later, codec) && !NeedsPush(files, remote, p, false, codec)
  {
    AdmitsSameToken(master, healthy, minValidity, now, codec);
    AdmitsSameToken(master, healthy, minValidity, later, codec);
  }

  /**
   * Two runs in a row with the same master token. The first leaves the peer as
   * `between`, the state at `mark - 1`; with nothing in its way it returns a
   * record. If it does, a second one whose probe is not silenced writes nothing
   * live, whatever else befalls it.
   */
  method SecondRunWritesNothing(peer: Peer, remote: RemotePath, master: Option<Json>, healthy: bool, minValidity: int, localAbsolute: bool, now: real, later: real, stamp: string, codec: Codec, status: nat -> Option<nat>)
      returns (first: Result<Record, KeepaliveError>, second: Result<Record, KeepaliveError>, ghost between: Files, ghost mark: nat, ghost tick: nat)
    requires peer.Valid() && remote.name != PROBE_NAME
    requires RoundTrips(codec, MintedFrom(master))
    modifies peer
    ensures peer.Valid() && |old(peer.trace)| <= mark <= |peer.trace| && old(peer.trace) <= peer.trace
    ensures mark > 0 && between == peer.trace[mark - 1] && old(peer.clock) <= tick <= peer.clock
    ensures var admitted := Admit(master, healthy, minValidity, now, codec);
            && (admitted.Err? ==> first == Err(admitted.error))
            && (admitted.Ok? && Clear(peer, old(peer.clock), remote, localAbsolute, stamp, status) ==>
                  MayConverge(old(peer.files), remote, admitted.value, false, now, codec) ==> first.Ok?)
            && (first.Ok? ==> admitted.Ok? && first.value.status == VERIFY_OK && LiveToken(between, remote, codec) == Some(admitted.value.access))
    ensures first.Ok? && !Blind(peer, tick, codec) ==> LiveUntouched(peer.trace, mark, between, remote)
    ensures first.Ok? && Admit(master, healthy, minValidity, later, codec).Ok? && Clear(peer, tick, remote, localAbsolute, stamp, status)
            ==> second.Ok? && second.value.action == AlreadyCurrent
  {
    hide ProbeRead, LiveToken, Admit, Clear, Blind, RoundTrips, MintedFrom, Downgrades, MustStay, MayConverge, NeedsPush, WouldDowngrade, ProbeAloneSuffers;
    var fellBack;
    AdmitsSameToken(master, healthy, minValidity, now, codec);
    first, fellBack := KeepalivePush(peer, remote, master, healthy, minValidity, localAbsolute, false, now, stamp, codec, status);
    between, mark, tick := peer.files, |peer.trace|, peer.clock;
    AdmitsSameToken(master, healthy, minValidity, later, codec);
    if first.Ok? && Admit(master, healthy, minValidity, later, codec).Ok? {
      RecordLeavesNothingToPush(between, remote, master, healthy, minValidity, now, later, codec);
    }
    second, fellBack := KeepalivePush(peer, remote, master, healthy, minValidity, localAbsolute, false, later, stamp, codec, status);
    assert LiveUntouched(peer.trace, mark, between, remote) || first.Err? || Blind(peer, tick, codec) by {
      if Admit(master, healthy, minValidity, later, codec).Err? { assert |peer.trace| == mark; }
    }
  }

  /** What any admission of this master sends, whenever it happens. */
  function MintedFrom(master: Option<Json>): Json {
    var t := ReadTokens(master);
    Artifact(t.access.GetOr(""), t.expiresMs.GetOr(0), Scopes(master))
  }

  lemma AdmitsSameToken(master: Option<Json>, healthy: bool, minValidity: int, now: real, codec: Codec)
    ensures var admitted := Admit(master, healthy, minValidity, now, codec);
            admitted.Ok? ==> admitted.value.artifact == MintedFrom(master) && admitted.value.access == ReadTokens(master).access.GetOr("")
  {
  }

  // ---- A credential lost to a silent probe ------------------------------------------

  /** A credential on the peer that is good for nine more seconds. */
  function WorkingDocument(): Json {
    Obj([Field("claudeAiOauth", Obj([Field("accessToken", Str("b")), Field("expiresAt", Int(NINE_SECONDS_LATER_MS))]))])
  }

  lemma WorkingDocumentReads(files: Files, remote: RemotePath, codec: Codec)
    requires remote in files && codec.parse(files[remote].content) == Some(WorkingDocument())
    ensures ProbeRead(files, remote, codec) == Some(Described(NINE_SECONDS_LATER_MS, Some("b"), None))
  {
    var inner := [Field("accessToken", Str("b")), Field("expiresAt", Int(NINE_SECONDS_LATER_MS))];
    assert Get(WorkingDocument().fields, "claudeAiOauth") == Some(Obj(inner));
    assert inner[1..][1..] == [] && inner[1..][0] == inner[1];
    assert Get(inner, "accessToken") == Some(Str("b"));
    assert Get(inner[1..], "expiresAt") == Some(Int(NINE_SECONDS_LATER_MS)) && Get(inner[1..], "refreshToken") == None;
    assert "accessToken"[0] == 'a' && "expiresAt"[0] == 'e' && "refreshToken"[0] == 'r';
    assert Get(inner, "expiresAt") == Some(Int(NINE_SECONDS_LATER_MS)) && Get(inner, "refreshToken") == None;
  }

  lemma ShortMasterIsAdmitted(minValidity: int, codec: Codec)
    requires minValidity < 1
    ensures var admitted := Admit(Some(ShortMaster()), true, minValidity, PRESENT, codec);
            admitted.Ok? && admitted.value.secondsLeft == 0
  {
    ShortMasterReads();
    assert SecondsLeft(Some(PRESENT_AND_A_HALF_MS), PRESENT) == 0;
    FitMasterIsAdmitted(Some(ShortMaster()), minValidity, PRESENT, codec, Tokens(Some("a"), Some("r"), Some(PRESENT_AND_A_HALF_MS)));
    AdmittedPayloadIsFit(Some(ShortMaster()), true, minValidity, PRESENT, codec);
    hide Admit, ShortMaster, ReadTokens;
  }

  /** Every operation works, but the third stops short, and no torn script ever says a word. */
  function SilentPlan(): nat -> Fault {
    (k: nat) => Fault(true, true, true, false, false, if k == 2 then Some(0) else None, 0, FILE_MODE)
  }

  lemma SilentPlanIsBlind(peer: Peer, remote: RemotePath, stamp: string, codec: Codec)
    requires peer.plan == SilentPlan() && codec.probe != [] && Push.SafePath(remote) && Push.SafePath(BackupPath(remote, stamp))
    ensures Blind(peer, 0, codec) && ProbeAloneSuffers(peer, 0, remote, true, stamp)
  {
  }

  /**
   * Under any floor below one second, a probe cut off before its first byte, and
   * nothing else amiss, has a working credential replaced by one with no second
   * left; under any other floor `KeepalivePush` ensures that no run does that.
   */
  method SilentProbeCostsACredential(remote: RemotePath, minValidity: int, stamp: string, codec: Codec, status: nat -> Option<nat>)
      returns (peer: Peer, r: Result<Record, KeepaliveError>)
    requires minValidity < 1
    requires codec.probe != [] && RoundTrips(codec, WorkingDocument())
    requires remote.name != PROBE_NAME && Push.SafePath(remote) && Push.SafePath(BackupPath(remote, stamp))
    ensures fresh(peer) && peer.Valid() && peer.plan == SilentPlan()
    ensures var admitted := Admit(Some(ShortMaster()), true, minValidity, PRESENT, codec);
            && |peer.trace| > 0 && ProbeRead(peer.trace[0], remote, codec) == Some(Described(NINE_SECONDS_LATER_MS, Some("b"), None))
            && SecondsLeft(Some(NINE_SECONDS_LATER_MS), PRESENT) == 9
            && admitted.Ok? && admitted.value.secondsLeft == 0
            && Lookup(peer.files, remote) == Some(Entry(admitted.value.bytes, FILE_MODE))
  {
    hide Admit, ShortMaster, ProbeRead, LiveToken, WorkingDocument, ReadTokens, Push.SafePath, Blind, ProbeAloneSuffers, Push.AlwaysLiveOk, MustStay, WouldDowngrade, MayConverge, NeedsPush, Clear;
    peer := new Peer(map[remote := Entry(codec.render(WorkingDocument()), FILE_MODE)], SilentPlan());
    ghost var before := peer.files;
    WorkingDocumentReads(before, remote, codec);
    ShortMasterIsAdmitted(minValidity, codec);
    SilentPlanIsBlind(peer, remote, stamp, codec);
    var fellBack;
    r, fellBack := KeepalivePush(peer, remote, Some(ShortMaster()), true, minValidity, true, false, PRESENT, stamp, codec, status);
  }
}
