/**
 * What a keepalive push may send and when: the scan for refresh material, the
 * minted artifact, the validity floor and the guard against downgrading.
 *
 * Fingerprints are taken as injective, so a token stands for its own
 * fingerprint. The wall clock is in seconds, expiries in milliseconds.
 */
module KeepaliveGuards {
  import opened Wrappers
  import opened Json
  import opened RemotePeer
  import Push = SnapshotPush

  // ---- Refresh material at any depth ----------------------------------------

  datatype Step = Key(name: string) | Index(index: nat)

  type Path = seq<Step>

  predicate IsRefreshKey(key: string) {
    Lower(key) == "refreshtoken" || Lower(key) == "refresh_token"
  }

  /** Paths of refresh keys, in traversal order, each extending `path`. */
  function RefreshPaths(j: Json, path: Path): seq<Path>
    decreases j, 1
  {
    match j
    case Obj(fields) => FieldPaths(fields, path)
    case Arr(items) => ItemPaths(items, 0, path)
    case _ => []
  }

  function FieldPaths(fields: Fields, path: Path): seq<Path>
    decreases fields, 0
  {
    if fields == [] then []
    else
      var here := path + [Key(fields[0].key)];
      (if IsRefreshKey(fields[0].key) then [here] else []) + RefreshPaths(fields[0].value, here) + FieldPaths(fields[1..], path)
  }

  function ItemPaths(items: seq<Json>, at: nat, path: Path): seq<Path>
    decreases items, 0
  {
    if items == [] then []
    else RefreshPaths(items[0], path + [Index(at)]) + ItemPaths(items[1..], at + 1, path)
  }

  /** Following `p` through the document ends at a mapping key that names refresh material. */
  ghost predicate Occurs(j: Json, p: Path)
    decreases |p|
  {
    && p != []
    && match j
       case Obj(fields) => OccursInFields(fields, p)
       case Arr(items) => p[0].Index? && p[0].index < |items| && Occurs(items[p[0].index], p[1..])
       case _ => false
  }

  ghost predicate OccursInFields(fields: Fields, p: Path)
    requires p != []
    decreases |p|, 0
  {
    && p[0].Key?
    && exists i :: 0 <= i < |fields| && fields[i].key == p[0].name
         && (if |p| == 1 then IsRefreshKey(p[0].name) else Occurs(fields[i].value, p[1..]))
  }

  /** The scan reports a path exactly when a refresh key sits there, at whatever depth. */
  lemma {:induction false} ScanIsExact(j: Json, path: Path, q: Path)
    ensures q in RefreshPaths(j, path) <==> path <= q && Occurs(j, q[|path|..])
    decreases j, 1
  {
    match j
    case Obj(fields) =>
      FieldScanIsExact(fields, path, q);
    case Arr(items) =>
      ItemScanIsExact(items, 0, path, q);
    case _ =>
  }

  lemma {:induction false} FieldScanIsExact(fields: Fields, path: Path, q: Path)
    ensures q in FieldPaths(fields, path) <==> path < q && OccursInFields(fields, q[|path|..])
    decreases fields, 0
  {
    if fields != [] {
      var here := path + [Key(fields[0].key)];
      ScanIsExact(fields[0].value, here, q);
      FieldScanIsExact(fields[1..], path, q);
      if path < q {
        var p := q[|path|..];
        ExtendsByOne(path, Key(fields[0].key), q);
        assert p[1..] == q[|path| + 1..];
        assert OccursInFields(fields, p) <==>
               (p[0] == Key(fields[0].key) && (if |p| == 1 then IsRefreshKey(p[0].name) else Occurs(fields[0].value, p[1..])))
               || OccursInFields(fields[1..], p) by { FieldSplit(fields, p); }
        if here <= q && |p| == 1 { assert q == here; }
      }
    }
  }

  lemma ExtendsByOne(path: Path, step: Step, q: Path)
    requires path < q
    ensures path + [step] <= q <==> q[|path|] == step
  {
    assert q[..|path| + 1] == path + [q[|path|]];
  }

  lemma FieldSplit(fields: Fields, p: Path)
    requires fields != [] && p != []
    ensures OccursInFields(fields, p) <==>
            (p[0] == Key(fields[0].key) && (if |p| == 1 then IsRefreshKey(p[0].name) else Occurs(fields[0].value, p[1..])))
            || OccursInFields(fields[1..], p)
  {
    if OccursInFields(fields, p) {
      var i :| 0 <= i < |fields| && fields[i].key == p[0].name
         && (if |p| == 1 then IsRefreshKey(p[0].name) else Occurs(fields[i].value, p[1..]));
      if i > 0 { assert fields[1..][i - 1] == fields[i]; }
    }
    if OccursInFields(fields[1..], p) {
      var i :| 0 <= i < |fields[1..]| && fields[1..][i].key == p[0].name
         && (if |p| == 1 then IsRefreshKey(p[0].name) else Occurs(fields[1..][i].value, p[1..]));
      assert fields[i + 1] == fields[1..][i];
    }
  }

  lemma {:induction false} ItemScanIsExact(items: seq<Json>, at: nat, path: Path, q: Path)
    ensures q in ItemPaths(items, at, path) <==>
            path < q && q[|path|].Index? && at <= q[|path|].index < at + |items|
            && Occurs(items[q[|path|].index - at], q[|path| + 1..])
    decreases items, 0
  {
    if items != [] {
      var here := path + [Index(at)];
      ScanIsExact(items[0], here, q);
      ItemScanIsExact(items[1..], at + 1, path, q);
      if path < q && q[|path|] == Index(at) {
        assert here == q[..|here|];
      }
    }
  }

  lemma ScanSteps(fields: Fields, items: seq<Json>, i: nat, path: Path)
    ensures FieldPaths([], path) == [] && ItemPaths([], i, path) == []
    ensures i < |fields| ==>
              FieldPaths(fields[i..], path) ==
              (if IsRefreshKey(fields[i].key) then [path + [Key(fields[i].key)]] else [])
              + RefreshPaths(fields[i].value, path + [Key(fields[i].key)]) + FieldPaths(fields[i + 1..], path)
    ensures i < |items| ==>
              ItemPaths(items[i..], i, path) == RefreshPaths(items[i], path + [Index(i)]) + ItemPaths(items[i + 1..], i + 1, path)
  {
    if i < |fields| { assert fields[i..][1..] == fields[i + 1..]; }
    if i < |items| { assert items[i..][1..] == items[i + 1..]; }
  }

  /** The scan as the source runs it: nested loops growing one list. `ScanIsExact` says what is on it. */
  method FindRefreshKeys(j: Json, path: Path) returns (found: seq<Path>)
    ensures found == RefreshPaths(j, path)
    decreases j
  {
    hide IsRefreshKey, FieldPaths, ItemPaths;
    ScanSteps([], [], 0, path);
    found := [];
    match j {
      case Obj(fields) =>
        assert fields[0..] == fields && fields[|fields|..] == [];
        for i := 0 to |fields|
          invariant found + FieldPaths(fields[i..], path) == FieldPaths(fields, path)
        {
          var here := path + [Key(fields[i].key)];
          if IsRefreshKey(fields[i].key) {
            found := found + [here];
          }
          var inner := FindRefreshKeys(fields[i].value, here);
          found := found + inner;
          ScanSteps(fields, [], i, path);
        }
      case Arr(items) =>
        assert items[0..] == items && items[|items|..] == [];
        ScanSteps([], [], |items|, path);
        for i := 0 to |items|
          invariant found + ItemPaths(items[i..], i, path) == ItemPaths(items, 0, path)
        {
          var inner := FindRefreshKeys(items[i], path + [Index(i)]);
          found := found + inner;
          ScanSteps([], items, i, path);
        }
      case _ =>
    }
  }

  // ---- Local guards ----------------------------------------------------------

  const MIN_VALIDITY_S := 300
  const VERIFY_OK := 200
  const PROBE_NAME := ".sac-keepalive-probe.py"
  const PROBE_MODE: nat := 700

  /** Calls into the language's own codecs: JSON text and the parsing of decimal strings. */
  datatype Codec = Codec(render: Json -> Bytes, parse: Bytes -> Option<Json>, intOf: string -> Option<int>, probe: Bytes)

  /** This one document survives being written and read. */
  predicate RoundTrips(codec: Codec, j: Json) { codec.parse(codec.render(j)) == Some(j) }

  function Trunc(x: real): int {
    if x >= 0.0 then x.Floor else -((-x).Floor)
  }

  /** Whole seconds until the expiry; an absent or zero expiry has none. */
  function SecondsLeft(expiresMs: Option<int>, now: real): int {
    if expiresMs.None? || expiresMs.value == 0 then 0 else Trunc(expiresMs.value as real / 1000.0 - now)
  }

  datatype Tokens = Tokens(access: Option<string>, refresh: Option<string>, expiresMs: Option<int>)

  function AsStr(j: Option<Json>): Option<string> {
    if j.Some? && j.value.Str? then Some(j.value.text) else None
  }

  /** In the source's language a truth value is an integer too. */
  function AsInt(j: Option<Json>): Option<int> {
    if j.None? then None
    else if j.value.Int? then Some(j.value.n)
    else if j.value.Bool? then Some(if j.value.flag then 1 else 0)
    else None
  }

  function OauthOf(doc: Option<Json>): Option<Fields> {
    if doc.Some? && doc.value.Obj? then
      var block := Get(doc.value.fields, "claudeAiOauth");
      if block.Some? && block.value.Obj? then Some(block.value.fields) else None
    else None
  }

  function ReadTokens(doc: Option<Json>): Tokens {
    var block := OauthOf(doc);
    if block.None? then Tokens(None, None, None)
    else Tokens(AsStr(Get(block.value, "accessToken")), AsStr(Get(block.value, "refreshToken")), AsInt(Get(block.value, "expiresAt")))
  }

  predicate NonEmpty(s: Option<string>) { s.Some? && s.value != "" }

  function StringsOnly(items: seq<Json>): (r: seq<Json>)
    ensures forall j :: j in r ==> j.Str?
  {
    if items == [] then []
    else (if items[0].Str? then [items[0]] else []) + StringsOnly(items[1..])
  }

  function Scopes(doc: Option<Json>): seq<Json> {
    var block := OauthOf(doc);
    if block.None? then []
    else
      var scopes := Get(block.value, "scopes");
      if scopes.Some? && scopes.value.Arr? then StringsOnly(scopes.value.items) else []
  }

  function Artifact(access: string, expiresMs: int, scopes: seq<Json>): Json {
    Obj([Field("claudeAiOauth", Obj([
      Field("accessToken", Str(access)), Field("expiresAt", Int(expiresMs)), Field("scopes", Arr(scopes))]))])
  }

  datatype KeepaliveError =
    | NotRefreshHolder
    | CannotMint
    | CarriesRefreshMaterial
    | TooLittleValidity
    | PeerFailed
    | ProbeFailed
    | Downgrade
    | BackupFailed
    | PushFailed(push: Push.PushError)
    | Unverifiable
    | Refused(status: nat)

  datatype Payload = Payload(artifact: Json, bytes: Bytes, expiresMs: int, secondsLeft: int, access: string)

  /** Strip, scan, and hold to the validity floor. `healthy` is the account's health gate, decided elsewhere. */
  function BuildPayload(master: Option<Json>, healthy: bool, minValidity: int, now: real, codec: Codec): Result<Payload, KeepaliveError> {
    var t := ReadTokens(master);
    if !healthy || !NonEmpty(t.access) || t.expiresMs.None? then Err(CannotMint)
    else
      var artifact := Artifact(t.access.value, t.expiresMs.value, Scopes(master));
      var left := SecondsLeft(Some(t.expiresMs.value), now);
      if RefreshPaths(artifact, []) != [] then Err(CarriesRefreshMaterial)
      else if left < minValidity then Err(TooLittleValidity)
      else Ok(Payload(artifact, codec.render(artifact), t.expiresMs.value, left, t.access.value))
  }

  lemma {:induction false} StringsHideNothing(items: seq<Json>, at: nat, path: Path)
    requires forall j :: j in items ==> j.Str?
    ensures ItemPaths(items, at, path) == []
  {
    if items != [] {
      StringsHideNothing(items[1..], at + 1, path);
    }
  }

  lemma CleanField(key: string, value: Json, rest: Fields, path: Path)
    requires !IsRefreshKey(key) && RefreshPaths(value, path + [Key(key)]) == [] && FieldPaths(rest, path) == []
    ensures FieldPaths([Field(key, value)] + rest, path) == []
  {
    assert ([Field(key, value)] + rest)[1..] == rest;
  }

  lemma OrdinaryKeys()
    ensures !IsRefreshKey("claudeAiOauth") && !IsRefreshKey("accessToken") && !IsRefreshKey("expiresAt") && !IsRefreshKey("scopes")
  {
    assert Lower("claudeAiOauth")[0] == 'c';
    assert Lower("accessToken")[0] == 'a';
    assert Lower("expiresAt")[0] == 'e';
    assert Lower("scopes")[0] == 's';
  }

  /** Minting strips by construction: whatever the master's document says, no depth of the artifact holds refresh material. */
  lemma MintedArtifactIsClean(access: string, expiresMs: int, scopes: seq<Json>)
    requires forall j :: j in scopes ==> j.Str?
    ensures RefreshPaths(Artifact(access, expiresMs, scopes), []) == []
    ensures forall q: Path :: !Occurs(Artifact(access, expiresMs, scopes), q)
  {
    OrdinaryKeys();
    var a := Artifact(access, expiresMs, scopes);
    var top := [] + [Key("claudeAiOauth")];
    var f0, f1, f2 := Field("accessToken", Str(access)), Field("expiresAt", Int(expiresMs)), Field("scopes", Arr(scopes));
    StringsHideNothing(scopes, 0, top + [Key("scopes")]);
    CleanField("scopes", Arr(scopes), [], top);
    CleanField("expiresAt", Int(expiresMs), [f2], top);
    CleanField("accessToken", Str(access), [f1, f2], top);
    assert [f0] + [f1, f2] == [f0, f1, f2] && [f1] + [f2] == [f1, f2] && [f2] + [] == [f2];
    CleanField("claudeAiOauth", Obj([f0, f1, f2]), [], []);
    assert a.fields == [Field("claudeAiOauth", Obj([f0, f1, f2]))] + [];
    forall q: Path ensures !Occurs(a, q) {
      ScanIsExact(a, [], q);
      assert q[0..] == q;
    }
  }
}
