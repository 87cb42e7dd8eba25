/** Filling the shared quota cache round by round, and looking one account up in it. */
module QuotaCache {
  import opened Wrappers
  import opened Json

  // ---- One account, one round -----------------------------------------------------------

  function ShortOf(name: string): string {
    if name == "" || name[0] == '-' then "" else [name[0]] + ShortOf(name[1..])
  }

  datatype RowError = NoSnapshot | FetchRaised | NoData | Upstream(detail: Json) | MissingUtilisation | NoExpiry

  /** Utilisation and reset stamps stay as decoded; a row that failed holds none of them. */
  datatype Row = Row(
    name: string, short: string, h5: Json, d7: Json, ttl: Json, resetAt5h: Json, resetAt7d: Json, error: Option<RowError>)

  /** What one account offers: whether its snapshot exists, what the fetch gave (None when it raised), and its expiry. */
  datatype Probe = Probe(snapshotExists: bool, usage: Option<Json>, expiresAtMs: Option<int>)

  predicate Falsy(j: Json) {
    match j
    case Null => true
    case Bool(flag) => !flag
    case Int(n) => n == 0
    case Float(r) => r == 0.0
    case NonFinite(_) => false
    case Str(text) => text == ""
    case Arr(items) => items == []
    case Obj(fields) => fields == []
  }

  predicate IsNumber(j: Json) { j.Int? || j.Float? || j.NonFinite? }

  function AsFloat(j: Json): Json { if j.Int? then Float(j.n as real) else j }

  function At(fields: Fields, key: string): Json { Get(fields, key).GetOr(Null) }

  function IsoOrNull(j: Json): Json { if j.Str? && Strip(j.text) != "" then j else Null }

  function TtlHours(expiresAtMs: int, now: real): Json { Float((expiresAtMs as real / 1000.0 - now) / 3600.0) }

  function EmptyRow(name: string): Row { Row(name, ShortOf(name), Null, Null, Null, Null, Null, None) }

  function RowOf(name: string, p: Probe, now: real): Row {
    var row := EmptyRow(name);
    if !p.snapshotExists then row.(error := Some(NoSnapshot))
    else if p.usage.None? then row.(error := Some(FetchRaised))
    else if !p.usage.value.Obj? then row.(error := Some(NoData))
    else
      var usage := p.usage.value.fields;
      if !Falsy(At(usage, "error")) then row.(error := Some(Upstream(At(usage, "error"))))
      else if !IsNumber(At(usage, "used_pct_5h")) || !IsNumber(At(usage, "used_pct_7d")) then row.(error := Some(MissingUtilisation))
      else if p.expiresAtMs.None? then row.(error := Some(NoExpiry))
      else row.(h5 := AsFloat(At(usage, "used_pct_5h")), d7 := AsFloat(At(usage, "used_pct_7d")), ttl := TtlHours(p.expiresAtMs.value, now),
                resetAt5h := IsoOrNull(At(usage, "reset_at_5h")), resetAt7d := IsoOrNull(At(usage, "reset_at_7d")))
  }

  predicate Readable(row: Row) { IsNumber(row.h5) && IsNumber(row.d7) && IsNumber(row.ttl) }

  /** A row either failed and holds nothing, or holds all three figures the reader insists on. */
  lemma RowIsAllOrNothing(name: string, p: Probe, now: real)
    ensures var row := RowOf(name, p, now);
            && row.name == name && row.short == ShortOf(name)
            && (row.error.None? <==> Readable(row))
            && (row.error.Some? ==> row.(error := None) == EmptyRow(name))
  {
  }

  function EntryOf(row: Row): Json {
    Obj([Field("short", Str(row.short)), Field("h5", row.h5), Field("d7", row.d7), Field("ttl_h", row.ttl),
         Field("reset_at_5h", row.resetAt5h), Field("reset_at_7d", row.resetAt7d)])
  }

  // ---- The file -------------------------------------------------------------------------

  /** The file's document; None when it is missing or does not parse. */
  type File = Option<Json>

  function Existing(file: File): Fields {
    if file.None? || !file.value.Obj? then []
    else
      var accounts := At(file.value.fields, "accounts");
      if accounts.Obj? then accounts.fields else []
  }

  function Wrapped(accounts: Fields, writtenAt: real): Json {
    Obj([Field("written_at", Float(writtenAt)), Field("accounts", Obj(accounts))])
  }

  function Merged(seed: Fields, rows: seq<Row>): Fields {
    if rows == [] then seed
    else
      var row := rows[|rows| - 1];
      var before := Merged(seed, rows[..|rows| - 1]);
      if row.error.None? then Put(before, row.name, EntryOf(row)) else before
  }

  /** An account as the store lists it; one without a name is passed over. */
  datatype Target = Target(name: string, probe: Probe)

  datatype Round = Round(merge: bool, listed: seq<Target>, now: real, lands: bool)

  function Rows(listed: seq<Target>, now: real): seq<Row> {
    if listed == [] then []
    else
      var t := listed[|listed| - 1];
      Rows(listed[..|listed| - 1], now) + (if t.name != "" then [RowOf(t.name, t.probe, now)] else [])
  }

  lemma {:induction false} RowsAreSound(listed: seq<Target>, now: real)
    ensures forall i :: 0 <= i < |Rows(listed, now)| ==>
              var row := Rows(listed, now)[i]; row.name != "" && row.short == ShortOf(row.name) && (row.error.None? ==> Readable(row))
  {
    if listed != [] {
      var t := listed[|listed| - 1];
      RowsAreSound(listed[..|listed| - 1], now);
      RowIsAllOrNothing(t.name, t.probe, now);
      hide RowOf;
    }
  }

  predicate Writes(round: Round) { round.lands && exists t :: t in round.listed && t.name != "" }

  function Refreshed(file: File, round: Round): File {
    if Writes(round) then Some(Wrapped(Merged(if round.merge then Existing(file) else [], Rows(round.listed, round.now)), round.now))
    else file
  }

  function Succeeded(rows: seq<Row>): nat {
    if rows == [] then 0 else Succeeded(rows[..|rows| - 1]) + if rows[|rows| - 1].error.None? then 1 else 0
  }

  datatype Outcome = Refresh(written: bool, found: nat, ok: nat, failed: nat, results: seq<Row>) | NoAccounts | WriteFailed

  class Cache {
    var file: File

    constructor ()
      ensures file == None
    {
      file := None;
    }

    /** One account's row, filled in step by step; a failure leaves what is filled so far. `RowIsAllOrNothing` says what that can be. */
    method RefreshOne(name: string, p: Probe, now: real) returns (row: Row)
      ensures row == RowOf(name, p, now) && row.name == name
    {
      row := EmptyRow(name);
      if !p.snapshotExists { return row.(error := Some(NoSnapshot)); }
      if p.usage.None? { return row.(error := Some(FetchRaised)); }
      if !p.usage.value.Obj? { return row.(error := Some(NoData)); }
      var usage := p.usage.value.fields;
      if !Falsy(At(usage, "error")) { return row.(error := Some(Upstream(At(usage, "error")))); }
      var h5, d7 := At(usage, "used_pct_5h"), At(usage, "used_pct_7d");
      if !IsNumber(h5) || !IsNumber(d7) { return row.(error := Some(MissingUtilisation)); }
      if p.expiresAtMs.None? { return row.(error := Some(NoExpiry)); }
      row := row.(h5 := AsFloat(h5));
      row := row.(d7 := AsFloat(d7));
      row := row.(ttl := TtlHours(p.expiresAtMs.value, now));
      row := row.(resetAt5h := IsoOrNull(At(usage, "reset_at_5h")));
      row := row.(resetAt7d := IsoOrNull(At(usage, "reset_at_7d")));
    }

    /** Every named account in turn: a success replaces its entry, a failure leaves it. */
    method TryAll(listed: seq<Target>, now: real, seed: Fields) returns (accountsOut: Fields, results: seq<Row>, ok: nat, failed: nat)
      ensures results == Rows(listed, now) && accountsOut == Merged(seed, results)
      ensures ok == Succeeded(results) && ok + failed == |results|
    {
      hide RowOf, Put, EntryOf, ShortOf;
      accountsOut, results, ok, failed := seed, [], 0, 0;
      for i := 0 to |listed|
        invariant results == Rows(listed[..i], now)
        invariant accountsOut == Merged(seed, results)
        invariant ok == Succeeded(results) && ok + failed == |results|
      {
        var t := listed[i];
        assert listed[..i + 1][..i] == listed[..i];
        if t.name != "" {
          var row := RefreshOne(t.name, t.probe, now);
          assert (results + [row])[..|results|] == results;
          results := results + [row];
          if row.error.None? {
            accountsOut := Put(accountsOut, t.name, EntryOf(row));
            ok := ok + 1;
          } else {
            failed := failed + 1;
          }
        }
      }
      assert listed[..|listed|] == listed;
    }

    /** One round: every named account is tried, and the file is replaced once at the end. `EntryIsTheNewestSuccess` says what it then holds. */
    method RefreshQuotaCache(round: Round) returns (r: Outcome)
      modifies this
      ensures file == Refreshed(old(file), round)
      ensures r.NoAccounts? <==> Rows(round.listed, round.now) == []
      ensures r.WriteFailed? <==> !round.lands && Rows(round.listed, round.now) != []
      ensures r.Refresh? ==> r.written && r.results == Rows(round.listed, round.now) && r.found == |r.results| == r.ok + r.failed
                             && r.ok == Succeeded(r.results)
    {
      NothingListedNothingTried(round.listed, round.now);
      hide Rows, Merged, Existing, Succeeded;
      var seed: Fields := [];
      if round.merge { seed := Existing(file); }
      if !(exists t :: t in round.listed && t.name != "") { return NoAccounts; }
      var accountsOut, results, ok, failed := TryAll(round.listed, round.now, seed);
      if !round.lands { return WriteFailed; }
      file := Some(Wrapped(accountsOut, round.now));
      r := Refresh(true, |results|, ok, failed, results);
    }
  }

  lemma {:induction false} NothingListedNothingTried(listed: seq<Target>, now: real)
    ensures Rows(listed, now) == [] <==> forall t :: t in listed ==> t.name == ""
  {
    if listed != [] {
      var n := |listed| - 1;
      hide RowOf;
      NothingListedNothingTried(listed[..n], now);
      assert listed == listed[..n] + [listed[n]];
      assert forall t :: t in listed <==> t in listed[..n] || t == listed[n];
    }
  }

  // ---- Any run of rounds ----------------------------------------------------------------

  function Run(file: File, rounds: seq<Round>): File {
    if rounds == [] then file else Refreshed(Run(file, rounds[..|rounds| - 1]), rounds[|rounds| - 1])
  }

  function LastSuccess(rows: seq<Row>, name: string): (r: Option<Row>)
    ensures r.Some? ==> r.value in rows && r.value.name == name && r.value.error.None?
  {
    if rows == [] then None
    else
      var row := rows[|rows| - 1];
      if row.name == name && row.error.None? then Some(row) else LastSuccess(rows[..|rows| - 1], name)
  }

  /** The newest success an account has had, looking back as far as the file remembers. */
  function Newest(file: File, rounds: seq<Round>, name: string): Option<Json> {
    if rounds == [] then Get(Existing(file), name)
    else
      var round := rounds[|rounds| - 1];
      var success := LastSuccess(Rows(round.listed, round.now), name);
      if !Writes(round) then Newest(file, rounds[..|rounds| - 1], name)
      else if success.Some? then Some(EntryOf(success.value))
      else if round.merge then Newest(file, rounds[..|rounds| - 1], name)
      else None
  }

  lemma {:induction false} MergedKeepsNewest(seed: Fields, rows: seq<Row>, name: string)
    ensures Get(Merged(seed, rows), name) ==
            if LastSuccess(rows, name).Some? then Some(EntryOf(LastSuccess(rows, name).value)) else Get(seed, name)
  {
    if rows != [] {
      var n := |rows| - 1;
      MergedKeepsNewest(seed, rows[..n], name);
      if rows[n].error.None? {
        PutThenGet(Merged(seed, rows[..n]), rows[n].name, EntryOf(rows[n]), name);
      }
    }
  }

  lemma WrappedReadsBack(accounts: Fields, writtenAt: real)
    ensures Existing(Some(Wrapped(accounts, writtenAt))) == accounts
    ensures At(Wrapped(accounts, writtenAt).fields, "written_at") == Float(writtenAt)
  {
    var fields := Wrapped(accounts, writtenAt).fields;
    assert fields[1..][0].key == "accounts";
    assert "written_at"[0] != "accounts"[0];
    assert fields[0].key != "accounts";
    assert Get(fields, "accounts") == Get(fields[1..], "accounts") == Some(Obj(accounts));
  }

  /** Over any run an account's entry is the row of its newest success: a later failure, or a later round without it, leaves it alone. */
  lemma {:induction false} EntryIsTheNewestSuccess(file: File, rounds: seq<Round>, name: string)
    ensures Get(Existing(Run(file, rounds)), name) == Newest(file, rounds, name)
  {
    if rounds != [] {
      var n := |rounds| - 1;
      var round := rounds[n];
      var rows := Rows(round.listed, round.now);
      EntryIsTheNewestSuccess(file, rounds[..n], name);
      if Writes(round) {
        var seed := if round.merge then Existing(Run(file, rounds[..n])) else [];
        MergedKeepsNewest(seed, rows, name);
        WrappedReadsBack(Merged(seed, rows), round.now);
      }
    }
  }

  /** Rounds that find no account, or whose write fails, leave the file as it is, down to its not existing. */
  lemma {:induction false} EmptyRoundsWriteNothing(file: File, rounds: seq<Round>, k: nat)
    requires k <= |rounds| && forall i :: k <= i < |rounds| ==> !Writes(rounds[i])
    ensures Run(file, rounds) == Run(file, rounds[..k])
  {
    if k < |rounds| {
      EmptyRoundsWriteNothing(file, rounds[..|rounds| - 1], k);
      assert rounds[..|rounds| - 1][..k] == rounds[..k];
    } else {
      assert rounds[..k] == rounds;
    }
  }

  /** The time on the file is the time of the last round that wrote it. */
  lemma StampIsTheLastWrite(file: File, rounds: seq<Round>, k: nat)
    requires k < |rounds| && Writes(rounds[k]) && forall i :: k < i < |rounds| ==> !Writes(rounds[i])
    ensures var after := Run(file, rounds); after.Some? && after.value.Obj? && At(after.value.fields, "written_at") == Float(rounds[k].now)
  {
    EmptyRoundsWriteNothing(file, rounds, k + 1);
    assert rounds[..k + 1][..k] == rounds[..k];
    var round := rounds[k];
    WrappedReadsBack(Merged(if round.merge then Existing(Run(file, rounds[..k])) else [], Rows(round.listed, round.now)), round.now);
  }

  // ---- Looking an account up ------------------------------------------------------------

  predicate Answers(value: Json, short: string) {
    && value.Obj?
    && Get(value.fields, "short") == Some(Str(short))
    && IsNumber(At(value.fields, "h5")) && IsNumber(At(value.fields, "d7")) && IsNumber(At(value.fields, "ttl_h"))
  }

  /** The first entry that answers to this short; `ReaderAnswersForTheFirstKey` says whose that is. */
  method FirstAnswer(accounts: Fields, short: string) returns (r: Option<Json>)
    ensures r == FirstOf(accounts, short)
  {
    for i := 0 to |accounts|
      invariant FirstOf(accounts, short) == FirstOf(accounts[i..], short)
    {
      if Answers(accounts[i].value, short) { return Some(accounts[i].value); }
      assert accounts[i..][1..] == accounts[i + 1..];
    }
    r := None;
  }

  function FirstOf(accounts: Fields, short: string): Option<Json> {
    if accounts == [] then None
    else if Answers(accounts[0].value, short) then Some(accounts[0].value)
    else FirstOf(accounts[1..], short)
  }

  function ReadQuotaEntry(file: File, dirname: string): Option<Json> {
    var short := ShortOf(Strip(dirname));
    if Strip(dirname) == "" || short == "" then None else FirstOf(Existing(file), short)
  }

  /** What the rounds leave behind: every entry answers to its own key's short, and to no other. */
  predicate WellKept(accounts: Fields) {
    && UniqueKeys(accounts)
    && forall i :: 0 <= i < |accounts| ==> Answers(accounts[i].value, ShortOf(accounts[i].key))
  }

  lemma PutKeepsWellKept(accounts: Fields, row: Row)
    requires WellKept(accounts) && Readable(row) && row.short == ShortOf(row.name)
    ensures WellKept(Put(accounts, row.name, EntryOf(row)))
  {
    EntryAnswers(row);
    PutShape(accounts, row.name, EntryOf(row));
    hide Put, EntryOf, Answers, ShortOf, Get;
  }

  lemma EntryAnswers(row: Row)
    requires Readable(row)
    ensures Answers(EntryOf(row), row.short)
  {
    var f := EntryOf(row).fields;
    assert |"short"| == 5 && |"h5"| == 2 && |"d7"| == 2 && |"ttl_h"| == 5 && "h5"[0] != "d7"[0] && "short"[0] != "ttl_h"[0];
    assert Get(f[3..], "ttl_h") == Some(row.ttl);
    assert f[2..][1..] == f[3..] && f[1..][1..] == f[2..];
    assert Get(f[2..], "ttl_h") == Get(f[3..], "ttl_h");
    assert Get(f[1..], "ttl_h") == Get(f[2..], "ttl_h");
    assert Get(f[2..], "d7") == Some(row.d7);
    assert Get(f[1..], "d7") == Get(f[2..], "d7");
    assert Get(f[1..], "h5") == Some(row.h5);
  }

  lemma {:induction false} PutShape(accounts: Fields, key: string, value: Json)
    ensures var r := Put(accounts, key, value);
            && (forall i :: 0 <= i < |accounts| ==> r[i] == accounts[i] || r[i] == Field(key, value))
            && (|r| > |accounts| ==> r[|accounts|] == Field(key, value) && forall i :: 0 <= i < |accounts| ==> accounts[i].key != key)
  {
    if accounts != [] && accounts[0].key != key {
      PutShape(accounts[1..], key, value);
      var rest := Put(accounts[1..], key, value);
      var r := Put(accounts, key, value);
      assert r == [accounts[0]] + rest;
      forall i | 0 <= i < |accounts| ensures r[i] == accounts[i] || r[i] == Field(key, value) {
        if i > 0 { assert accounts[1..][i - 1] == accounts[i]; }
      }
      if |r| > |accounts| {
        forall i | 0 <= i < |accounts| ensures accounts[i].key != key {
          if i > 0 { assert accounts[1..][i - 1] == accounts[i]; }
        }
      }
    }
  }

  lemma {:induction false} MergedIsWellKept(seed: Fields, rows: seq<Row>)
    requires WellKept(seed)
    requires forall i :: 0 <= i < |rows| ==> rows[i].short == ShortOf(rows[i].name) && (rows[i].error.None? ==> Readable(rows[i]))
    ensures WellKept(Merged(seed, rows))
  {
    if rows != [] {
      var n := |rows| - 1;
      MergedIsWellKept(seed, rows[..n]);
      if rows[n].error.None? { PutKeepsWellKept(Merged(seed, rows[..n]), rows[n]); }
    }
  }

  lemma {:induction false} RunIsWellKept(rounds: seq<Round>)
    ensures WellKept(Existing(Run(None, rounds)))
  {
    if rounds != [] {
      var n := |rounds| - 1;
      var round := rounds[n];
      RunIsWellKept(rounds[..n]);
      if Writes(round) {
        var seed := if round.merge then Existing(Run(None, rounds[..n])) else [];
        RowsAreSound(round.listed, round.now);
        MergedIsWellKept(seed, Rows(round.listed, round.now));
        WrappedReadsBack(Merged(seed, Rows(round.listed, round.now)), round.now);
      }
    }
  }

  /** The first key, in the order accounts were first cached, that shares this short. */
  function FirstKey(accounts: Fields, short: string): (r: Option<string>)
    ensures r.Some? ==> HasKey(accounts, r.value) && ShortOf(r.value) == short
    ensures r.None? ==> forall i :: 0 <= i < |accounts| ==> ShortOf(accounts[i].key) != short
  {
    if accounts == [] then None
    else if ShortOf(accounts[0].key) == short then
      assert accounts[0].key == accounts[0].key;
      Some(accounts[0].key)
    else
      var rest := FirstKey(accounts[1..], short);
      assert rest.Some? ==> exists j :: 0 <= j < |accounts[1..]| && accounts[1..][j].key == rest.value && accounts[j + 1].key == rest.value;
      rest
  }

  lemma {:induction false} FirstOfIsFirstKeys(accounts: Fields, short: string)
    requires WellKept(accounts)
    ensures FirstOf(accounts, short) ==
            if FirstKey(accounts, short).Some? then Get(accounts, FirstKey(accounts, short).value) else None
  {
    if accounts != [] {
      assert WellKept(accounts[1..]);
      FirstOfIsFirstKeys(accounts[1..], short);
      assert Answers(accounts[0].value, ShortOf(accounts[0].key));
      var k := FirstKey(accounts[1..], short);
      if k.Some? {
        var j :| 0 <= j < |accounts[1..]| && accounts[1..][j].key == k.value;
        assert accounts[j + 1].key != accounts[0].key;
      }
    }
  }

  /** After any run, the reader answers with the newest success of the first account cached under the short it was asked for. */
  lemma ReaderAnswersForTheFirstKey(rounds: seq<Round>, dirname: string)
    ensures var accounts := Existing(Run(None, rounds));
            var first := FirstKey(accounts, ShortOf(Strip(dirname)));
            ReadQuotaEntry(Run(None, rounds), dirname) ==
            if ShortOf(Strip(dirname)) != "" && first.Some? then Newest(None, rounds, first.value) else None
  {
    var accounts := Existing(Run(None, rounds));
    var short := ShortOf(Strip(dirname));
    RunIsWellKept(rounds);
    FirstOfIsFirstKeys(accounts, short);
    if FirstKey(accounts, short).Some? {
      EntryIsTheNewestSuccess(None, rounds, FirstKey(accounts, short).value);
    }
  }

  predicate DistinctShorts(accounts: Fields) {
    forall i, j :: 0 <= i < j < |accounts| ==> ShortOf(accounts[i].key) != ShortOf(accounts[j].key)
  }

  lemma {:induction false} CachedKeysRead(accounts: Fields, name: string)
    ensures HasKey(accounts, name) <==> Get(accounts, name).Some?
  {
    if accounts != [] {
      CachedKeysRead(accounts[1..], name);
      if i :| 0 <= i < |accounts| && accounts[i].key == name {
        assert i == 0 || accounts[1..][i - 1].key == name;
      }
      if j :| 0 <= j < |accounts[1..]| && accounts[1..][j].key == name {
        assert accounts[j + 1].key == name;
      }
    }
  }

  /**
   * A cached account is answered with its own newest success exactly when the
   * name it is looked up under has a short, and the first account cached under
   * that short has the same entry in the file.
   */
  lemma ReaderAnswersForTheAccount(rounds: seq<Round>, name: string)
    requires HasKey(Existing(Run(None, rounds)), name)
    ensures var accounts := Existing(Run(None, rounds));
            var short := ShortOf(Strip(name));
            ReadQuotaEntry(Run(None, rounds), name) == Newest(None, rounds, name) <==>
            short != "" && FirstKey(accounts, short).Some? && Get(accounts, FirstKey(accounts, short).value) == Get(accounts, name)
  {
    var accounts := Existing(Run(None, rounds));
    ReaderAnswersForTheFirstKey(rounds, name);
    EntryIsTheNewestSuccess(None, rounds, name);
    CachedKeysRead(accounts, name);
    var first := FirstKey(accounts, ShortOf(Strip(name)));
    if first.Some? { EntryIsTheNewestSuccess(None, rounds, first.value); }
  }

  /** So it is for the first account cached under its short, whatever shorts the others have; and where no two share a short every account is the first. */
  lemma FirstUnderItsShortIsAnswered(rounds: seq<Round>, name: string)
    requires HasKey(Existing(Run(None, rounds)), name) && Strip(name) == name && ShortOf(name) != ""
    ensures FirstKey(Existing(Run(None, rounds)), ShortOf(name)) == Some(name) ==> ReadQuotaEntry(Run(None, rounds), name) == Newest(None, rounds, name)
    ensures DistinctShorts(Existing(Run(None, rounds))) ==> FirstKey(Existing(Run(None, rounds)), ShortOf(name)) == Some(name)
  {
    var accounts := Existing(Run(None, rounds));
    ReaderAnswersForTheAccount(rounds, name);
    if DistinctShorts(accounts) {
      var i :| 0 <= i < |accounts| && accounts[i].key == name;
      var first := FirstKey(accounts, ShortOf(name));
      var j :| 0 <= j < |accounts| && accounts[j].key == first.value;
      assert i == j;
    }
  }

  /** Colliding shorts are ambiguous: two such accounts always get one answer, so unless their figures agree one of them is wrong. */
  lemma CollidingShortsAnswerAlike(rounds: seq<Round>, a: string, b: string)
    requires Strip(a) == a && Strip(b) == b && ShortOf(a) == ShortOf(b)
    ensures ReadQuotaEntry(Run(None, rounds), a) == ReadQuotaEntry(Run(None, rounds), b)
    ensures Newest(None, rounds, a) != Newest(None, rounds, b) ==>
              ReadQuotaEntry(Run(None, rounds), a) != Newest(None, rounds, a) || ReadQuotaEntry(Run(None, rounds), b) != Newest(None, rounds, b)
  {
    ReaderAnswersForTheFirstKey(rounds, a);
    ReaderAnswersForTheFirstKey(rounds, b);
  }

  /** What a fetch gives for an account that has used this much of both windows. */
  function UsageAt(percent: int): Json {
    Obj([Field("used_pct_5h", Int(percent)), Field("used_pct_7d", Int(percent))])
  }

  lemma UsageRow(name: string, percent: int)
    ensures var row := RowOf(name, Probe(true, Some(UsageAt(percent)), Some(0)), 0.0);
            row.error.None? && row.name == name && row.h5 == Float(percent as real)
  {
    var fields := UsageAt(percent).fields;
    assert "used_pct_5h"[9] == '5' && "used_pct_7d"[9] == '7' && "error"[0] == 'e' && "used_pct_5h"[0] == 'u' && "used_pct_7d"[0] == 'u';
    assert fields[1..][0] == fields[1] && fields[1..][1..] == [];
    assert Get(fields[1..], "error") == None && Get(fields, "error") == None;
    assert Get(fields, "used_pct_5h") == Some(Int(percent));
    assert Get(fields[1..], "used_pct_7d") == Some(Int(percent));
    assert Get(fields, "used_pct_7d") == Get(fields[1..], "used_pct_7d");
  }

  /** One round over two accounts with one short, the first nearly idle and the second nearly spent. */
  function TwoAlike(): Round {
    Round(true, [Target("a-x", Probe(true, Some(UsageAt(1)), Some(0))), Target("a-y", Probe(true, Some(UsageAt(99)), Some(0)))], 0.0, true)
  }

  lemma TwoRows(t: Target, u: Target, now: real)
    requires t.name != "" && u.name != ""
    ensures Rows([t, u], now) == [RowOf(t.name, t.probe, now), RowOf(u.name, u.probe, now)]
  {
    hide RowOf;
    assert [t, u][..1] == [t] && [t][..0] == [];
    assert Rows([t], now) == [RowOf(t.name, t.probe, now)];
  }

  lemma TwoEntries(x: Row, y: Row)
    requires x.error.None? && y.error.None? && x.name != y.name
    ensures Merged([], [x, y]) == [Field(x.name, EntryOf(x)), Field(y.name, EntryOf(y))]
  {
    hide EntryOf;
    assert [x, y][..1] == [x] && [x][..0] == [];
    var one := [Field(x.name, EntryOf(x))];
    assert Merged([], [x]) == Put([], x.name, EntryOf(x)) == one;
    assert one[1..] == [] && Put(one[1..], y.name, EntryOf(y)) == [Field(y.name, EntryOf(y))];
    assert Merged([], [x, y]) == Put(one, y.name, EntryOf(y)) == one + [Field(y.name, EntryOf(y))];
  }

  lemma TwoAlikeRows()
    ensures var x, y := RowOf("a-x", Probe(true, Some(UsageAt(1)), Some(0)), 0.0), RowOf("a-y", Probe(true, Some(UsageAt(99)), Some(0)), 0.0);
            Existing(Run(None, [TwoAlike()])) == [Field("a-x", EntryOf(x)), Field("a-y", EntryOf(y))]
  {
    var listed := TwoAlike().listed;
    var x, y := RowOf("a-x", listed[0].probe, 0.0), RowOf("a-y", listed[1].probe, 0.0);
    UsageRow("a-x", 1);
    UsageRow("a-y", 99);
    hide RowOf, EntryOf, UsageAt, Rows, Merged;
    assert listed == [listed[0], listed[1]] && listed[1] in listed && Writes(TwoAlike());
    TwoRows(listed[0], listed[1], 0.0);
    assert "a-x"[2] != "a-y"[2];
    TwoEntries(x, y);
    assert [TwoAlike()][..0] == [];
    WrappedReadsBack(Merged([], [x, y]), 0.0);
  }

  /** And so it happens: the nearly spent account is answered with the nearly idle one's figures. */
  lemma SpentAccountReadsAsIdle()
    ensures var file := Run(None, [TwoAlike()]);
            var x, y := RowOf("a-x", Probe(true, Some(UsageAt(1)), Some(0)), 0.0), RowOf("a-y", Probe(true, Some(UsageAt(99)), Some(0)), 0.0);
            && x.h5 == Float(1.0) && y.h5 == Float(99.0)
            && Newest(None, [TwoAlike()], "a-y") == Some(EntryOf(y))
            && ReadQuotaEntry(file, "a-y") == Some(EntryOf(x)) != Some(EntryOf(y))
  {
    var x, y := RowOf("a-x", Probe(true, Some(UsageAt(1)), Some(0)), 0.0), RowOf("a-y", Probe(true, Some(UsageAt(99)), Some(0)), 0.0);
    UsageRow("a-x", 1);
    UsageRow("a-y", 99);
    TwoAlikeRows();
    hide RowOf, UsageAt, TwoAlike, Run, Rows;
    var accounts := Existing(Run(None, [TwoAlike()]));
    assert "a-x"[2] != "a-y"[2];
    assert accounts[1..][0] == accounts[1];
    assert Get(accounts, "a-x") == Some(EntryOf(x)) && Get(accounts[1..], "a-y") == Some(EntryOf(y)) && Get(accounts, "a-y") == Some(EntryOf(y));
    EntryIsTheNewestSuccess(None, [TwoAlike()], "a-x");
    EntryIsTheNewestSuccess(None, [TwoAlike()], "a-y");
    assert "a-x"[1..] == "-x" && "a-y"[1..] == "-y" && ShortOf("-x") == "" && ShortOf("-y") == "";
    assert ShortOf("a-x") == "a" && ShortOf("a-y") == "a";
    assert Strip("a-y") == "a-y";
    assert FirstKey(accounts, "a") == Some("a-x");
    ReaderAnswersForTheFirstKey([TwoAlike()], "a-y");
    assert EntryOf(x).fields[1].value != EntryOf(y).fields[1].value;
  }
}
