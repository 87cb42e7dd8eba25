/** Mirroring the live login into the per-account stores, judged over any run of syncs. */
module SyncLive {
  import opened Wrappers
  import opened Json

  // ---- Reading a credential and a label -------------------------------------------------

  /** The expiry as it is written: any number, but not a flag. */
  function RawExpiry(doc: Option<Json>): Option<real> {
    if doc.None? || !doc.value.Obj? then None
    else
      var block := Get(doc.value.fields, "claudeAiOauth");
      if block.None? || !block.value.Obj? then None
      else
        match Get(block.value.fields, "expiresAt")
        case Some(Int(n)) => Some(n as real)
        case Some(Float(r)) => Some(r)
        case _ => None
  }

  /** Milliseconds are told from seconds by size alone. */
  function ToSeconds(raw: real): real { if raw > 1e12 then raw / 1000.0 else raw }

  function Expiry(doc: Option<Json>): Option<real> {
    var raw := RawExpiry(doc);
    if raw.None? then None else Some(ToSeconds(raw.value))
  }

  function Label(fields: Fields, key: string): Option<string> {
    match Get(fields, key)
    case Some(Str(text)) => if Strip(text) != "" then Some(Strip(text)) else None
    case _ => None
  }

  function ActiveEmail(profile: Option<Json>): Option<string> {
    if profile.None? || !profile.value.Obj? then None
    else
      var account := Get(profile.value.fields, "oauthAccount");
      if account.None? || !account.value.Obj? then None else Label(account.value.fields, "emailAddress")
  }

  function RecordedEmail(metadata: Option<Json>): Option<string> {
    if metadata.None? || !metadata.value.Obj? then None else Label(metadata.value.fields, "email_address")
  }

  function Metadata(email: string, name: string): Json {
    Obj([Field("email_address", Str(email)), Field("name", Str(name))])
  }

  // ---- The store's name -----------------------------------------------------------------

  function Replace(s: string, from: char, to: char): (r: string)
    ensures |r| == |s|
  {
    seq(|s|, i requires 0 <= i < |s| => if s[i] == from then to else s[i])
  }

  function SlugifyEmail(email: string): string {
    Replace(Replace(Lower(Strip(email)), '@', '-'), '.', '-')
  }

  predicate Separator(c: char) { c == '@' || c == '.' || c == '-' }

  /** Two emails share a store exactly when, trimmed and lower-cased, they differ only in which separators they use. */
  lemma SlugsCollideExactlyOnSeparators(a: string, b: string)
    ensures SlugifyEmail(a) == SlugifyEmail(b) <==>
            var x, y := Lower(Strip(a)), Lower(Strip(b));
            |x| == |y| && forall i :: 0 <= i < |x| ==> x[i] == y[i] || (Separator(x[i]) && Separator(y[i]))
  {
    var x, y := Lower(Strip(a)), Lower(Strip(b));
    var p, q := SlugifyEmail(a), SlugifyEmail(b);
    forall i | 0 <= i < |x| ensures p[i] == if Separator(x[i]) then '-' else x[i] {
    }
    forall i | 0 <= i < |y| ensures q[i] == if Separator(y[i]) then '-' else y[i] {
    }
    if p == q {
      forall i | 0 <= i < |x| ensures x[i] == y[i] || (Separator(x[i]) && Separator(y[i])) {
        assert p[i] == q[i];
      }
    }
  }

  // ---- One sync -------------------------------------------------------------------------

  /** What one store directory holds: a credential snapshot and its label, each possibly unreadable. */
  datatype Entry = Entry(snapshot: Option<Json>, metadata: Option<Json>)

  type Stores = map<string, Entry>

  function EntryAt(stores: Stores, name: string): Entry {
    if name in stores then stores[name] else Entry(None, None)
  }

  /** What one sync sees: the live file, the profile, who the server says the token is, the clock, and whether the label's write lands. */
  datatype Sight = Sight(live: Option<Json>, profile: Option<Json>, tokenEmail: Option<string>, now: real, labelLands: bool)

  datatype SyncError = LiveUnreadable | LiveExpired | AccountUnknown | IdentityRefused | LabelFailed

  datatype Action = Saved | UpToDate

  datatype SyncResult = SyncResult(action: Action, storeName: string, email: string, liveExpiry: real, storeExpiry: Option<real>)

  predicate Online(s: Sight) { s.tokenEmail.Some? }

  predicate LiveIsValid(s: Sight) { Expiry(s.live).Some? && Expiry(s.live).value > s.now }

  function TargetEmail(s: Sight): Option<string> {
    if s.tokenEmail.Some? then s.tokenEmail else ActiveEmail(s.profile)
  }

  predicate Fresher(entry: Entry, live: real) {
    Expiry(entry.snapshot).Some? && Expiry(entry.snapshot).value >= live
  }

  predicate RecordsAnother(entry: Entry, email: string) {
    RecordedEmail(entry.metadata).Some? && Lower(RecordedEmail(entry.metadata).value) != Lower(email)
  }

  /** The run decides to overwrite this store's credential. */
  predicate Writes(stores: Stores, s: Sight, name: string) {
    && LiveIsValid(s)
    && TargetEmail(s).Some?
    && name == SlugifyEmail(TargetEmail(s).value)
    && !Fresher(EntryAt(stores, name), Expiry(s.live).value)
    && (!Online(s) ==> !RecordsAnother(EntryAt(stores, name), TargetEmail(s).value))
  }

  function Sync(stores: Stores, s: Sight): Stores {
    if TargetEmail(s).Some? && Writes(stores, s, SlugifyEmail(TargetEmail(s).value)) then
      var name := SlugifyEmail(TargetEmail(s).value);
      var metadata := if s.labelLands then Some(Metadata(TargetEmail(s).value, name)) else EntryAt(stores, name).metadata;
      stores[name := Entry(s.live, metadata)]
    else stores
  }

  function Verdict(stores: Stores, s: Sight): Result<SyncResult, SyncError> {
    if Expiry(s.live).None? then Err(LiveUnreadable)
    else if Expiry(s.live).value <= s.now then Err(LiveExpired)
    else if TargetEmail(s).None? then Err(AccountUnknown)
    else
      var email := TargetEmail(s).value;
      var name := SlugifyEmail(email);
      var entry := EntryAt(stores, name);
      var result := SyncResult(UpToDate, name, email, Expiry(s.live).value, Expiry(entry.snapshot));
      if Fresher(entry, Expiry(s.live).value) then Ok(result)
      else if !Online(s) && RecordsAnother(entry, email) then Err(IdentityRefused)
      else if !s.labelLands then Err(LabelFailed)
      else Ok(result.(action := Saved))
  }

  class AccountStore {
    var stores: Stores

    constructor (found: Stores)
      ensures stores == found
    {
      stores := found;
    }

    /** One sync, in the order the guards are applied; `ChangeIsAFresherSave` and the lemmas about runs say what it may change. */
    method SyncLive(s: Sight) returns (r: Result<SyncResult, SyncError>)
      modifies this
      ensures stores == Sync(old(stores), s)
      ensures r == Verdict(old(stores), s)
    {
      hide RawExpiry, ToSeconds, Label, SlugifyEmail, Lower, Metadata;
      var liveExpiry := Expiry(s.live);
      if liveExpiry.None? { return Err(LiveUnreadable); }
      if liveExpiry.value <= s.now { return Err(LiveExpired); }
      var targetEmail: string;
      var verified := false;
      if s.tokenEmail.Some? {
        targetEmail, verified := s.tokenEmail.value, true;
      } else {
        var active := ActiveEmail(s.profile);
        if active.None? { return Err(AccountUnknown); }
        targetEmail := active.value;
      }
      var name := SlugifyEmail(targetEmail);
      var entry := EntryAt(stores, name);
      var storeExpiry := Expiry(entry.snapshot);
      if storeExpiry.Some? && storeExpiry.value >= liveExpiry.value {
        return Ok(SyncResult(UpToDate, name, targetEmail, liveExpiry.value, storeExpiry));
      }
      if !verified {
        var recorded := RecordedEmail(entry.metadata);
        if recorded.Some? && Lower(recorded.value) != Lower(targetEmail) { return Err(IdentityRefused); }
      }
      stores := stores[name := Entry(s.live, entry.metadata)];
      if !s.labelLands { return Err(LabelFailed); }
      stores := stores[name := Entry(s.live, Some(Metadata(targetEmail, name)))];
      r := Ok(SyncResult(Saved, name, targetEmail, liveExpiry.value, storeExpiry));
    }
  }

  // ---- Any run of syncs -----------------------------------------------------------------

  function Run(stores: Stores, sights: seq<Sight>): Stores {
    if sights == [] then stores else Sync(Run(stores, sights[..|sights| - 1]), sights[|sights| - 1])
  }

  /** No expiry at all is below every expiry. */
  predicate NotEarlier(a: Option<real>, b: Option<real>) { a.None? || (b.Some? && a.value <= b.value) }

  predicate Earlier(a: Option<real>, b: Option<real>) { b.Some? && (a.None? || a.value < b.value) }

  /** A store changes only by a save: of this live credential, still valid, expiring later than what it replaces. */
  lemma ChangeIsAFresherSave(stores: Stores, s: Sight, name: string)
    ensures var before, after := EntryAt(stores, name), EntryAt(Sync(stores, s), name);
            && (before != after ==> Writes(stores, s, name))
            && (Writes(stores, s, name) ==>
                  after.snapshot == s.live && Expiry(s.live).value > s.now && Earlier(Expiry(before.snapshot), Expiry(after.snapshot)))
            && NotEarlier(Expiry(before.snapshot), Expiry(after.snapshot))
  {
  }

  /** Over any run no store's expiry ever falls. */
  lemma {:induction false} ExpiryNeverFalls(stores: Stores, sights: seq<Sight>, k: nat, name: string)
    requires k <= |sights|
    ensures NotEarlier(Expiry(EntryAt(Run(stores, sights[..k]), name).snapshot), Expiry(EntryAt(Run(stores, sights), name).snapshot))
  {
    var n := |sights|;
    if k < n {
      ExpiryNeverFalls(stores, sights[..n - 1], k, name);
      assert sights[..n - 1][..k] == sights[..k];
      ChangeIsAFresherSave(Run(stores, sights[..n - 1]), sights[n - 1], name);
    } else {
      assert sights[..k] == sights;
    }
  }

  /** Whatever a store holds was there at the start, or was the live credential of a run that found it valid. */
  lemma {:induction false} NothingExpiredIsEverSaved(stores: Stores, sights: seq<Sight>, name: string)
    ensures var held := EntryAt(Run(stores, sights), name).snapshot;
            || held == EntryAt(stores, name).snapshot
            || exists i :: 0 <= i < |sights| && sights[i].live == held && LiveIsValid(sights[i])
                           && TargetEmail(sights[i]).Some? && SlugifyEmail(TargetEmail(sights[i]).value) == name
  {
    var n := |sights|;
    if n > 0 {
      NothingExpiredIsEverSaved(stores, sights[..n - 1], name);
      var before := Run(stores, sights[..n - 1]);
      ChangeIsAFresherSave(before, sights[n - 1], name);
      if EntryAt(before, name) != EntryAt(Run(stores, sights), name) {
        assert Writes(before, sights[n - 1], name);
        assert sights[n - 1].live == EntryAt(Run(stores, sights), name).snapshot;
      }
    }
  }

  /** Syncing again what was just synced changes nothing, and reports up to date while it is still valid. */
  lemma RepeatIsNoOp(stores: Stores, s: Sight, later: real, lands: bool)
    requires Verdict(stores, s).Ok?
    ensures var again := s.(now := later, labelLands := lands);
            && Sync(Sync(stores, s), again) == Sync(stores, s)
            && (later < Expiry(s.live).value ==> Verdict(Sync(stores, s), again).Ok? && Verdict(Sync(stores, s), again).value.action == UpToDate)
  {
  }

  /**
   * A run whose label did not land is not repaired by repeating it: the
   * credential is there, so the repeat is up to date and the label stays as it was.
   */
  lemma LostLabelStaysLost(stores: Stores, s: Sight, later: real)
    requires Verdict(stores, s) == Err(LabelFailed) && later < Expiry(s.live).value
    ensures var name := SlugifyEmail(TargetEmail(s).value);
            var again := s.(now := later, labelLands := true);
            var final := Sync(Sync(stores, s), again);
            && Verdict(Sync(stores, s), again).Ok?
            && EntryAt(final, name).snapshot == s.live
            && EntryAt(final, name).metadata == EntryAt(stores, name).metadata
  {
  }

  /** An offline run never touches a store that records another account. */
  lemma OfflineNeverCrossesAccounts(stores: Stores, s: Sight, name: string)
    requires !Online(s)
    requires EntryAt(Sync(stores, s), name) != EntryAt(stores, name)
    ensures ActiveEmail(s.profile).Some?
    ensures var recorded := RecordedEmail(EntryAt(stores, name).metadata);
            recorded.None? || Lower(recorded.value) == Lower(ActiveEmail(s.profile).value)
  {
  }

  // ---- Whose credential a store holds ---------------------------------------------------

  /** The server's answer, when there is one, is the account the live token belongs to. */
  ghost predicate Truthful(s: Sight, owner: Json -> string) {
    s.tokenEmail.Some? && s.live.Some? ==> s.tokenEmail.value == owner(s.live.value)
  }

  ghost predicate FiledRight(entry: Entry, name: string, owner: Json -> string) {
    entry.snapshot.Some? ==> SlugifyEmail(owner(entry.snapshot.value)) == name
  }

  /** When every run is online, a store that is written holds a credential of the account it is named after. */
  lemma {:induction false} OnlineRunsFileRight(stores: Stores, sights: seq<Sight>, owner: Json -> string, name: string)
    requires forall i :: 0 <= i < |sights| ==> Online(sights[i]) && Truthful(sights[i], owner)
    ensures var held := EntryAt(Run(stores, sights), name);
            held.snapshot == EntryAt(stores, name).snapshot || FiledRight(held, name, owner)
  {
    var n := |sights|;
    if n > 0 {
      OnlineRunsFileRight(stores, sights[..n - 1], owner, name);
      ChangeIsAFresherSave(Run(stores, sights[..n - 1]), sights[n - 1], name);
      assert Truthful(sights[n - 1], owner);
    }
  }

  /**
   * A write is sure to be filed right, whoever the live credential belongs to,
   * exactly when the server was asked whose it is.
   */
  lemma WriteFilesRightIff(stores: Stores, s: Sight, name: string)
    requires Writes(stores, s, name)
    ensures (forall owner: Json -> string :: Truthful(s, owner) ==> FiledRight(EntryAt(Sync(stores, s), name), name, owner)) <==> Online(s)
  {
    if !Online(s) {
      var one: Json -> string, two: Json -> string := j => "a", j => "b";
      SlugsCollideExactlyOnSeparators("a", "b");
      assert Strip("a") == "a" && Strip("b") == "b";
      assert Lower("a")[0] == 'a' && Lower("b")[0] == 'b';
      assert SlugifyEmail("a") != SlugifyEmail("b");
      assert s.live.Some? && Truthful(s, one) && Truthful(s, two);
      assert one(s.live.value) == "a" && two(s.live.value) == "b";
    }
  }

  /** So an offline run can file another account's credential under a store that records the stale profile's account. */
  lemma OfflineRunCanMisfile(profile: Json, live: Json, owner: Json -> string, now: real)
    requires ActiveEmail(Some(profile)).Some? && Expiry(Some(live)).Some? && Expiry(Some(live)).value > now
    requires SlugifyEmail(ActiveEmail(Some(profile)).value) != SlugifyEmail(owner(live))
    ensures var email := ActiveEmail(Some(profile)).value;
            var name := SlugifyEmail(email);
            var stores := map[name := Entry(None, Some(Metadata(email, name)))];
            var s := Sight(Some(live), Some(profile), None, now, true);
            && EntryAt(Sync(stores, s), name).snapshot == Some(live)
            && !FiledRight(EntryAt(Sync(stores, s), name), name, owner)
  {
    var email := ActiveEmail(Some(profile)).value;
    var name := SlugifyEmail(email);
    StripIsIdempotent(Get(Get(profile.fields, "oauthAccount").value.fields, "emailAddress").value.text);
    assert RecordedEmail(Some(Metadata(email, name))) == Some(email);
  }

  lemma {:induction false} LStripEnd(s: string)
    ensures LStrip(s) != "" ==> !Blank(LStrip(s)[0])
  {
    if s != "" && Blank(s[0]) { LStripEnd(s[1..]); }
  }

  lemma {:induction false} RStripEnds(s: string)
    ensures RStrip(s) <= s
    ensures RStrip(s) != "" ==> !Blank(RStrip(s)[|RStrip(s)| - 1])
  {
    if s != "" && Blank(s[|s| - 1]) { RStripEnds(s[..|s| - 1]); }
  }

  lemma StripIsIdempotent(s: string)
    ensures Strip(Strip(s)) == Strip(s)
  {
    LStripEnd(s);
    RStripEnds(LStrip(s));
  }

  /**
   * Which accounts a store is open to: while it holds an older credential of
   * `held`, a verified and fresher one replaces it exactly when the two emails,
   * trimmed and lower-cased, differ at most in their separators.
   */
  lemma OnlineTakeoverIff(stores: Stores, s: Sight, held: string)
    requires Online(s) && LiveIsValid(s) && !Fresher(EntryAt(stores, SlugifyEmail(held)), Expiry(s.live).value)
    ensures Writes(stores, s, SlugifyEmail(held)) <==>
            var x, y := Lower(Strip(s.tokenEmail.value)), Lower(Strip(held));
            |x| == |y| && forall i :: 0 <= i < |x| ==> x[i] == y[i] || (Separator(x[i]) && Separator(y[i]))
  {
    SlugsCollideExactlyOnSeparators(s.tokenEmail.value, held);
  }

  /** Nor does being online keep two accounts apart when their emails differ only in separators. */
  lemma CollidingAccountTakesTheStore(stores: Stores, s: Sight, name: string)
    requires Online(s) && Writes(stores, s, name)
    requires RecordsAnother(EntryAt(stores, name), s.tokenEmail.value)
    ensures EntryAt(Sync(stores, s), name).snapshot == s.live
    ensures s.labelLands && Strip(s.tokenEmail.value) != "" ==>
              RecordedEmail(EntryAt(Sync(stores, s), name).metadata) == Some(Strip(s.tokenEmail.value))
  {
    var fields := Metadata(s.tokenEmail.value, name).fields;
    assert Get(fields, "email_address") == Some(Str(s.tokenEmail.value));
  }
}
