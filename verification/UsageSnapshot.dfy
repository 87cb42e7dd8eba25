/**
 * Usage snapshots: the projection of provider answers and the revalidation of
 * what a cache hands back. Instants are microseconds of UTC.
 */
module UsageSnapshot {
  import opened Wrappers
  import opened Json

  type Instant = int

  const CACHE_MICROS: int := 300 * 1_000_000

  /** The calendar's own conversions: aware ISO strings, and numeric epochs in seconds. */
  datatype Calendar = Calendar(parse: string -> Option<Instant>, render: Instant -> string, fromEpoch: real -> Option<Instant>)

  /** This instant, written out, is read back. */
  predicate ReadsBackAt(cal: Calendar, t: Instant) { cal.parse(cal.render(t)) == Some(t) }

  /** The calendar reads this instant from some text or epoch; a calendar of finitely many years reads only some. */
  ghost predicate Reads(cal: Calendar, t: Instant) {
    (exists text :: cal.parse(text) == Some(t)) || (exists epoch :: cal.fromEpoch(epoch) == Some(t))
  }

  /** What it can read at all, it writes in a form it reads back. */
  ghost predicate Faithful(cal: Calendar) {
    forall t :: Reads(cal, t) ==> ReadsBackAt(cal, t)
  }

  /** A crude way of writing instants: their distance from zero in strokes, doubled, and one more stroke before zero. */
  function Strokes(t: Instant): string {
    if t >= 0 then seq(2 * t, _ => '|') else seq(-2 * t + 1, _ => '|')
  }

  function Count(text: string): Instant {
    if |text| % 2 == 0 then |text| / 2 else -(|text| / 2)
  }

  lemma StrokesCountBack(t: Instant)
    ensures Count(Strokes(t)) == t
  {
    assert |Strokes(t)| == if t >= 0 then 2 * t else -2 * t + 1;
  }

  /** Nothing more is asked of a calendar than a bounded one can do. */
  lemma BoundedCalendarsCanBeFaithful(first: Instant, last: Instant)
    ensures exists cal: Calendar :: Faithful(cal) && forall t :: Reads(cal, t) <==> first <= t <= last
  {
    var cal := Calendar(text => if first <= Count(text) <= last then Some(Count(text)) else None, Strokes, epoch => None);
    hide Strokes, Count;
    forall t ensures (first <= t <= last ==> ReadsBackAt(cal, t)) && (Reads(cal, t) <==> first <= t <= last) {
      StrokesCountBack(t);
      assert first <= t <= last ==> cal.parse(Strokes(t)) == Some(t);
    }
    assert Faithful(cal);
  }

  datatype State = Known | Stale | Unknown

  datatype Window = Window(name: string, used: Option<real>, remaining: Option<real>, resetAt: Option<Instant>, duration: Option<real>, state: State)

  /** Each balance is absent, or present with or without a usable number. */
  datatype Balances = Balances(monthlyIncluded: Option<Option<real>>, purchased: Option<Option<real>>, free: Option<Option<real>>)

  datatype Cost = Cost(amount: real, start: Instant, end: Instant)

  datatype Snapshot = Snapshot(fetchedAt: Instant, usage: State, windows: seq<Window>, dollars: bool, balances: Balances, cost: Option<Cost>)

  const NO_BALANCES := Balances(None, None, None)

  /** Finite, non-negative numbers; a truth value is not one. */
  function Number(j: Option<Json>): (r: Option<real>)
    ensures r.Some? ==> r.value >= 0.0
  {
    if j.None? then None
    else if j.value.Int? && j.value.n >= 0 then Some(j.value.n as real)
    else if j.value.Float? && j.value.r >= 0.0 then Some(j.value.r)
    else None
  }

  function Timestamp(j: Option<Json>, milliseconds: bool, cal: Calendar): Option<Instant> {
    if j.None? then None
    else
      var scale := if milliseconds then 1000.0 else 1.0;
      match j.value
      case Int(n) => cal.fromEpoch(n as real / scale)
      case Float(r) => cal.fromEpoch(r / scale)
      case Str(s) => cal.parse(s)
      case _ => None
  }

  function SnapshotState(fetchedAt: Instant, now: Instant): State {
    if now < fetchedAt then Unknown else if now - fetchedAt <= CACHE_MICROS then Known else Stale
  }

  function MakeWindow(name: string, percent: Option<Json>, reset: Option<Json>, duration: Option<Json>, milliseconds: bool, now: Instant, cal: Calendar): (w: Window)
    ensures w.used.Some? <==> w.remaining.Some?
    ensures w.used.Some? ==> 0.0 <= w.used.value <= 100.0 && w.used.value + w.remaining.value == 100.0
    ensures w.state == Known ==> w.used.Some? && w.resetAt.Some? && now < w.resetAt.value
  {
    var n := Number(percent);
    var used := if n.Some? && n.value <= 100.0 then n else None;
    var resetAt := Timestamp(reset, milliseconds, cal);
    var state := if used.None? || resetAt.None? then Unknown else if resetAt.value > now then Known else Stale;
    Window(name, used, if used.Some? then Some(100.0 - used.value) else None, resetAt, Number(duration), state)
  }

  // ---- What a cache hands back ---------------------------------------------------

  datatype RawWindow = NotAWindow | RawWindow(name: Option<Json>, used: Option<Json>, resetAt: Option<Json>, duration: Option<Json>)

  datatype RawBalances = NoBalances | RawBalances(monthlyIncluded: Option<Json>, purchased: Option<Json>, free: Option<Json>)

  datatype RawCost = NoCost | RawCost(amount: Option<Json>, start: Option<Json>, end: Option<Json>)

  datatype RawSnapshot =
    | NotADict
    | Raw(fetchedAt: Option<Json>, usage: Option<Json>, windows: seq<RawWindow>, currency: Option<Json>, balances: RawBalances, cost: RawCost)

  predicate WindowName(name: string) {
    name in {"primary_window", "secondary_window", "rolling", "weekly", "monthly", "fiveHour"}
  }

  predicate Admissible(raw: RawWindow) {
    raw.RawWindow? && raw.name.Some? && raw.name.value.Str? && WindowName(raw.name.value.text)
  }

  /** A window is never fresher than the snapshot it came with. */
  function Revalidated(raw: RawWindow, usage: State, now: Instant, cal: Calendar): (w: Window)
    requires Admissible(raw)
    ensures w.used.Some? ==> 0.0 <= w.used.value <= 100.0 && w.remaining.Some? && w.used.value + w.remaining.value == 100.0
    ensures w.state == Known ==> usage == Known && w.resetAt.Some? && now < w.resetAt.value
  {
    var w := MakeWindow(raw.name.value.text, raw.used, raw.resetAt, raw.duration, false, now, cal);
    if usage != Known && w.state == Known then w.(state := usage) else w
  }

  function Windows(raw: seq<RawWindow>, usage: State, now: Instant, cal: Calendar): seq<Window> {
    if raw == [] then []
    else
      var last := raw[|raw| - 1];
      Windows(raw[..|raw| - 1], usage, now, cal) + (if Admissible(last) then [Revalidated(last, usage, now, cal)] else [])
  }

  function Balance(j: Option<Json>): Option<Option<real>> {
    if j.None? then None else Some(Number(j))
  }

  function ReadBalances(raw: RawBalances): Balances {
    if raw.NoBalances? then NO_BALANCES else Balances(Balance(raw.monthlyIncluded), Balance(raw.purchased), Balance(raw.free))
  }

  function ReadCost(raw: RawCost, cal: Calendar): Option<Cost> {
    if raw.NoCost? || Number(raw.amount).None? then None
    else
      var start, end := Timestamp(raw.start, false, cal), Timestamp(raw.end, false, cal);
      if start.Some? && end.Some? && start.value <= end.value then Some(Cost(Number(raw.amount).value, start.value, end.value)) else None
  }

  predicate AnyWindow(windows: seq<Window>, state: State) {
    exists i :: 0 <= i < |windows| && windows[i].state == state
  }

  predicate AnyBalance(b: Balances) {
    b.monthlyIncluded.GetOr(None).Some? || b.purchased.GetOr(None).Some? || b.free.GetOr(None).Some?
  }

  predicate Measured(windows: seq<Window>, balances: Balances, cost: Option<Cost>) {
    AnyWindow(windows, Known) || AnyBalance(balances) || cost.Some?
  }

  function Usage(fetchedAt: Instant, claimed: Option<Json>, windows: seq<Window>, balances: Balances, cost: Option<Cost>, now: Instant): State {
    var aged := SnapshotState(fetchedAt, now);
    if claimed == Some(Str("unknown")) then Unknown
    else if aged == Known && !Measured(windows, balances, cost) then (if AnyWindow(windows, Stale) then Stale else Unknown)
    else aged
  }

  /** Revalidation as a function of the raw bytes and the clock. */
  function Safe(raw: RawSnapshot, now: Instant, cal: Calendar): Option<Snapshot> {
    if raw.NotADict? then None
    else
      var stamp := Timestamp(raw.fetchedAt, false, cal);
      if stamp.None? then None
      else
        var windows := Windows(raw.windows, SnapshotState(stamp.value, now), now, cal);
        var dollars := raw.currency == Some(Str("USD"));
        var balances := if dollars then ReadBalances(raw.balances) else NO_BALANCES;
        var cost := if dollars then ReadCost(raw.cost, cal) else None;
        Some(Snapshot(stamp.value, Usage(stamp.value, raw.usage, windows, balances, cost, now), windows, dollars, balances, cost))
  }

  /** The revalidating loop; `SafeIsIdempotent`, `PercentagesAddUp` and `KnownEarlierToo` say what it hands back. */
  method SafeSnapshot(raw: RawSnapshot, now: Instant, cal: Calendar) returns (r: Option<Snapshot>)
    ensures r == Safe(raw, now, cal)
  {
    if raw.NotADict? { return None; }
    var stamp := Timestamp(raw.fetchedAt, false, cal);
    if stamp.None? { return None; }
    var usage := SnapshotState(stamp.value, now);
    var windows: seq<Window> := [];
    for n := 0 to |raw.windows|
      invariant windows == Windows(raw.windows[..n], usage, now, cal)
    {
      assert raw.windows[..n + 1][..n] == raw.windows[..n];
      var item := raw.windows[n];
      if !Admissible(item) {
        continue;
      }
      var row := MakeWindow(item.name.value.text, item.used, item.resetAt, item.duration, false, now, cal);
      if usage != Known && row.state == Known {
        row := row.(state := usage);
      }
      windows := windows + [row];
    }
    assert raw.windows[..|raw.windows|] == raw.windows;
    var dollars, balances, cost := false, NO_BALANCES, None;
    if raw.currency == Some(Str("USD")) {
      dollars := true;
      balances := ReadBalances(raw.balances);
      cost := ReadCost(raw.cost, cal);
    }
    var measured := Measured(windows, balances, cost);
    if !measured && usage == Known {
      usage := if AnyWindow(windows, Stale) then Stale else Unknown;
    }
    if raw.usage == Some(Str("unknown")) {
      usage := Unknown;
    }
    r := Some(Snapshot(stamp.value, usage, windows, dollars, balances, cost));
  }

  // ---- Writing out and reading back ------------------------------------------------

  function NumberOut(n: Option<real>): Option<Json> { Some(if n.Some? then Float(n.value) else Null) }

  function TimeOut(t: Option<Instant>, cal: Calendar): Option<Json> { Some(if t.Some? then Str(cal.render(t.value)) else Null) }

  function StateOut(s: State): Json {
    Str(match s case Known => "known" case Stale => "stale" case Unknown => "unknown")
  }

  function WindowOut(w: Window, cal: Calendar): RawWindow {
    RawWindow(Some(Str(w.name)), NumberOut(w.used), TimeOut(w.resetAt, cal), NumberOut(w.duration))
  }

  function WindowsOut(windows: seq<Window>, cal: Calendar): seq<RawWindow> {
    if windows == [] then [] else WindowsOut(windows[..|windows| - 1], cal) + [WindowOut(windows[|windows| - 1], cal)]
  }

  function BalanceOut(b: Option<Option<real>>): Option<Json> { if b.None? then None else NumberOut(b.value) }

  function BalancesOut(b: Balances): RawBalances {
    RawBalances(BalanceOut(b.monthlyIncluded), BalanceOut(b.purchased), BalanceOut(b.free))
  }

  function CurrencyOut(dollars: bool): Option<Json> { Some(if dollars then Str("USD") else Null) }

  function Out(s: Snapshot, cal: Calendar): RawSnapshot {
    Raw(Some(Str(cal.render(s.fetchedAt))), Some(StateOut(s.usage)), WindowsOut(s.windows, cal), CurrencyOut(s.dollars), BalancesOut(s.balances),
        if s.cost.None? then NoCost
        else RawCost(Some(Float(s.cost.value.amount)), TimeOut(Some(s.cost.value.start), cal), TimeOut(Some(s.cost.value.end), cal)))
  }

  /** The shape every window has once it has been made at `now` under a snapshot of freshness `usage`. */
  predicate Settled(w: Window, usage: State, now: Instant) {
    && WindowName(w.name)
    && (w.used.Some? ==> 0.0 <= w.used.value <= 100.0)
    && w.remaining == (if w.used.Some? then Some(100.0 - w.used.value) else None)
    && (w.duration.Some? ==> w.duration.value >= 0.0)
    && w.state == (if w.used.None? || w.resetAt.None? then Unknown else if w.resetAt.value > now then usage else Stale)
  }

  lemma SettledWindowReadsBack(w: Window, usage: State, now: Instant, cal: Calendar)
    requires Settled(w, usage, now) && (w.resetAt.Some? ==> ReadsBackAt(cal, w.resetAt.value))
    ensures Admissible(WindowOut(w, cal)) && Revalidated(WindowOut(w, cal), usage, now, cal) == w
  {
  }

  predicate AllSettled(windows: seq<Window>, usage: State, now: Instant) {
    forall i :: 0 <= i < |windows| ==> Settled(windows[i], usage, now)
  }

  /** Every reset time among the windows is one the calendar reads back. */
  predicate ResetsReadBack(windows: seq<Window>, cal: Calendar) {
    forall i :: 0 <= i < |windows| && windows[i].resetAt.Some? ==> ReadsBackAt(cal, windows[i].resetAt.value)
  }

  lemma TimestampsAreRead(j: Option<Json>, milliseconds: bool, cal: Calendar)
    requires Faithful(cal) && Timestamp(j, milliseconds, cal).Some?
    ensures ReadsBackAt(cal, Timestamp(j, milliseconds, cal).value)
  {
    assert Reads(cal, Timestamp(j, milliseconds, cal).value);
  }

  lemma {:induction false} WindowsReadBack(windows: seq<Window>, usage: State, now: Instant, cal: Calendar)
    requires AllSettled(windows, usage, now) && ResetsReadBack(windows, cal)
    ensures Windows(WindowsOut(windows, cal), usage, now, cal) == windows
  {
    if windows != [] {
      var n := |windows| - 1;
      WindowsReadBack(windows[..n], usage, now, cal);
      SettledWindowReadsBack(windows[n], usage, now, cal);
      var out := WindowsOut(windows, cal);
      assert out[..|out| - 1] == WindowsOut(windows[..n], cal);
    }
  }

  lemma {:induction false} RevalidatedWindowsSettle(raw: seq<RawWindow>, usage: State, now: Instant, cal: Calendar)
    ensures AllSettled(Windows(raw, usage, now, cal), usage, now)
    ensures Faithful(cal) ==> ResetsReadBack(Windows(raw, usage, now, cal), cal)
  {
    if raw != [] {
      var last := raw[|raw| - 1];
      RevalidatedWindowsSettle(raw[..|raw| - 1], usage, now, cal);
      if Faithful(cal) && Admissible(last) && Timestamp(last.resetAt, false, cal).Some? { TimestampsAreRead(last.resetAt, false, cal); }
    }
  }

  lemma BalancesReadBack(raw: RawBalances)
    ensures ReadBalances(BalancesOut(ReadBalances(raw))) == ReadBalances(raw)
  {
  }

  lemma CostReadsBack(c: Cost, cal: Calendar)
    requires ReadsBackAt(cal, c.start) && ReadsBackAt(cal, c.end) && c.amount >= 0.0 && c.start <= c.end
    ensures ReadCost(RawCost(Some(Float(c.amount)), TimeOut(Some(c.start), cal), TimeOut(Some(c.end), cal)), cal) == Some(c)
  {
  }

  lemma UsageIsIdempotent(fetchedAt: Instant, claimed: Option<Json>, windows: seq<Window>, balances: Balances, cost: Option<Cost>, now: Instant)
    ensures var usage := Usage(fetchedAt, claimed, windows, balances, cost, now);
            Usage(fetchedAt, Some(StateOut(usage)), windows, balances, cost, now) == usage
  {
    assert StateOut(Known) != Str("unknown") && StateOut(Stale) != Str("unknown") by {
      assert "known"[0] == 'k' && "stale"[0] == 's' && "unknown"[0] == 'u';
    }
  }

  /** A snapshot whose parts read back is revalidated to itself, its usage state decided afresh. */
  lemma OutIsSafe(s: Snapshot, now: Instant, cal: Calendar)
    requires ReadsBackAt(cal, s.fetchedAt) && ResetsReadBack(s.windows, cal)
    requires s.cost.Some? ==> ReadsBackAt(cal, s.cost.value.start) && ReadsBackAt(cal, s.cost.value.end)
    requires AllSettled(s.windows, SnapshotState(s.fetchedAt, now), now)
    requires ReadBalances(BalancesOut(s.balances)) == s.balances
    requires s.cost.Some? ==> s.cost.value.amount >= 0.0 && s.cost.value.start <= s.cost.value.end
    requires !s.dollars ==> s.balances == NO_BALANCES && s.cost.None?
    ensures Safe(Out(s, cal), now, cal) ==
            Some(s.(usage := Usage(s.fetchedAt, Some(StateOut(s.usage)), s.windows, s.balances, s.cost, now)))
  {
    hide StateOut, Usage;
    var out := Out(s, cal);
    assert Timestamp(out.fetchedAt, false, cal) == Some(s.fetchedAt);
    WindowsReadBack(s.windows, SnapshotState(s.fetchedAt, now), now, cal);
    if s.cost.Some? { CostReadsBack(s.cost.value, cal); }
    assert (out.currency == Some(Str("USD"))) == s.dollars;
  }

  /** Revalidating a revalidated snapshot at the same moment changes nothing. */
  lemma SafeIsIdempotent(raw: RawSnapshot, now: Instant, cal: Calendar)
    requires Faithful(cal) && Safe(raw, now, cal).Some?
    ensures Safe(Out(Safe(raw, now, cal).value, cal), now, cal) == Safe(raw, now, cal)
  {
    hide Usage, Windows;
    var s := Safe(raw, now, cal).value;
    TimestampsAreRead(raw.fetchedAt, false, cal);
    if s.cost.Some? {
      TimestampsAreRead(raw.cost.start, false, cal);
      TimestampsAreRead(raw.cost.end, false, cal);
    }
    RevalidatedWindowsSettle(raw.windows, SnapshotState(s.fetchedAt, now), now, cal);
    BalancesReadBack(raw.balances);
    OutIsSafe(s, now, cal);
    UsageIsIdempotent(s.fetchedAt, raw.usage, s.windows, s.balances, s.cost, now);
  }

  /** Every percentage of a revalidated snapshot lies between 0 and 100 and complements what remains. */
  lemma {:induction false} PercentagesAddUp(raw: seq<RawWindow>, usage: State, now: Instant, cal: Calendar, i: nat)
    requires i < |Windows(raw, usage, now, cal)|
    ensures var w := Windows(raw, usage, now, cal)[i];
            w.used.Some? ==> 0.0 <= w.used.value <= 100.0 && w.remaining == Some(100.0 - w.used.value)
  {
    RevalidatedWindowsSettle(raw, usage, now, cal);
    assert Settled(Windows(raw, usage, now, cal)[i], usage, now);
  }

  // ---- Snapshots only decay ------------------------------------------------------------

  lemma {:induction false} WindowsDecay(raw: seq<RawWindow>, earlier: Instant, later: Instant, cal: Calendar)
    requires earlier <= later
    ensures var a, b := Windows(raw, Known, earlier, cal), Windows(raw, Known, later, cal);
            |a| == |b| && (forall i :: 0 <= i < |a| && b[i].state == Known ==> a[i].state == Known)
  {
    if raw != [] {
      WindowsDecay(raw[..|raw| - 1], earlier, later, cal);
    }
  }

  /** Known now means known at any moment since it was fetched, and window by window as well. */
  lemma KnownEarlierToo(raw: RawSnapshot, earlier: Instant, later: Instant, cal: Calendar)
    requires Safe(raw, later, cal).Some? && Safe(raw, later, cal).value.usage == Known
    requires Safe(raw, later, cal).value.fetchedAt <= earlier <= later
    ensures var a, b := Safe(raw, earlier, cal), Safe(raw, later, cal);
            && a.Some? && a.value.usage == Known && |a.value.windows| == |b.value.windows|
            && (forall i :: 0 <= i < |b.value.windows| && b.value.windows[i].state == Known ==> a.value.windows[i].state == Known)
  {
    WindowsDecay(raw.windows, earlier, later, cal);
    var b := Safe(raw, later, cal).value;
    if AnyWindow(b.windows, Known) {
      var i :| 0 <= i < |b.windows| && b.windows[i].state == Known;
      assert Safe(raw, earlier, cal).value.windows[i].state == Known;
    }
  }

  // ---- Projection ----------------------------------------------------------------------

  datatype Provider = OpenAi | OpenCodeGo | CommandCode | OtherProvider

  /** `window_start` is carried as the caller supplied it. */
  datatype Spent = Spent(amount: real, start: Option<Json>)

  datatype Projection = Projection(windows: seq<Window>, dollars: bool, balances: Balances, cost: Option<Spent>, usage: State)

  function Sub(j: Option<Json>, key: string): Option<Json> {
    if j.Some? && j.value.Obj? then Get(j.value.fields, key) else None
  }

  function IfObject(w: Window, item: Option<Json>): seq<Window> {
    if item.Some? && item.value.Obj? then [w] else []
  }

  function OpenAiWindow(name: string, quota: Option<Json>, now: Instant, cal: Calendar): seq<Window> {
    var item := Sub(Sub(quota, "rate_limit"), name);
    IfObject(MakeWindow(name, Sub(item, "used_percent"), Sub(item, "reset_at"), Sub(item, "limit_window_seconds"), false, now, cal), item)
  }

  function GoWindow(name: string, quota: Option<Json>, now: Instant, cal: Calendar): Window {
    var item := Sub(Sub(quota, "usage"), name);
    MakeWindow(name, Sub(item, "percent"), Sub(item, "resetsAt"), None, false, now, cal)
  }

  /** A share of the cap, never above the whole; no cap, no share. */
  function Percent(used: Option<real>, cap: Option<real>): Option<Json> {
    if used.Some? && cap.Some? && cap.value != 0.0 then
      var share := used.value / cap.value * 100.0;
      Some(Float(if share > 100.0 then 100.0 else share))
    else None
  }

  function CommandWindow(name: string, credits: Option<Json>, now: Instant, cal: Calendar): Window {
    var item := Sub(Sub(credits, "windowLimits"), name);
    MakeWindow(name, Percent(Number(Sub(item, "used")), Number(Sub(item, "cap"))), Sub(item, "resetAt"), None, true, now, cal)
  }

  function ProjectedWindows(provider: Provider, payloads: Fields, now: Instant, cal: Calendar): seq<Window> {
    var quota, data := Get(payloads, "quota"), Get(payloads, "credits");
    match provider
    case OpenAi => OpenAiWindow("primary_window", quota, now, cal) + OpenAiWindow("secondary_window", quota, now, cal)
    case OpenCodeGo => [GoWindow("rolling", quota, now, cal), GoWindow("weekly", quota, now, cal), GoWindow("monthly", quota, now, cal)]
    case CommandCode => [CommandWindow("fiveHour", data, now, cal), CommandWindow("weekly", data, now, cal)]
    case OtherProvider => []
  }

  /** Only one provider reports credits, and only as an object. */
  function ProjectedCredits(provider: Provider, payloads: Fields): Option<Json> {
    var credits := Sub(Get(payloads, "credits"), "credits");
    if provider.CommandCode? && credits.Some? && credits.value.Obj? then credits else None
  }

  function ProjectedBalances(credits: Option<Json>): Balances {
    if credits.None? then NO_BALANCES
    else Balances(Some(Number(Sub(credits, "monthlyCredits"))), Some(Number(Sub(credits, "purchasedCredits"))), Some(Number(Sub(credits, "freeCredits"))))
  }

  function Project(provider: Provider, payloads: Fields, now: Instant, cal: Calendar): Projection {
    var credits := ProjectedCredits(provider, payloads);
    var spent := if provider.CommandCode? then Number(Sub(Get(payloads, "cost"), "totalCost")) else None;
    var windows, balances := ProjectedWindows(provider, payloads, now, cal), ProjectedBalances(credits);
    var measured := AnyWindow(windows, Known) || AnyBalance(balances) || spent.Some?;
    Projection(windows, credits.Some? || spent.Some?, balances,
               if spent.Some? then Some(Spent(spent.value, Get(payloads, "cost_since"))) else None,
               if measured then Known else Unknown)
  }

  /** A projection as the cache writes it, fetched at `now` and its cost window ending there. */
  function ProjectionOut(p: Projection, now: Instant, cal: Calendar): RawSnapshot {
    Raw(Some(Str(cal.render(now))), Some(StateOut(p.usage)), WindowsOut(p.windows, cal), CurrencyOut(p.dollars), BalancesOut(p.balances),
        if p.cost.None? then NoCost else RawCost(Some(Float(p.cost.value.amount)), p.cost.value.start, TimeOut(Some(now), cal)))
  }

  /** The cost survives exactly when its window has a readable start that is not after its end. */
  function KeptCost(p: Projection, now: Instant, cal: Calendar): Option<Cost> {
    if p.cost.None? then None
    else
      var start := Timestamp(p.cost.value.start, false, cal);
      if start.Some? && start.value <= now then Some(Cost(p.cost.value.amount, start.value, now)) else None
  }

  lemma ProjectedWindowsSettle(provider: Provider, payloads: Fields, now: Instant, cal: Calendar)
    ensures AllSettled(ProjectedWindows(provider, payloads, now, cal), Known, now)
  {
    forall w | w in ProjectedWindows(provider, payloads, now, cal) ensures Settled(w, Known, now) {
    }
  }

  lemma MadeResetReadsBack(name: string, percent: Option<Json>, reset: Option<Json>, duration: Option<Json>, milliseconds: bool, now: Instant, cal: Calendar)
    requires Faithful(cal)
    ensures var w := MakeWindow(name, percent, reset, duration, milliseconds, now, cal);
            w.resetAt.Some? ==> ReadsBackAt(cal, w.resetAt.value)
  {
    if Timestamp(reset, milliseconds, cal).Some? { TimestampsAreRead(reset, milliseconds, cal); }
  }

  lemma ProjectedResetsReadBack(provider: Provider, payloads: Fields, now: Instant, cal: Calendar)
    requires Faithful(cal)
    ensures ResetsReadBack(ProjectedWindows(provider, payloads, now, cal), cal)
  {
    forall name, percent, reset, duration, milliseconds {
      MadeResetReadsBack(name, percent, reset, duration, milliseconds, now, cal);
    }
    hide MakeWindow, ReadsBackAt, Percent, Number, Faithful;
  }

  lemma ProjectedBalancesReadBack(credits: Option<Json>)
    ensures ReadBalances(BalancesOut(ProjectedBalances(credits))) == ProjectedBalances(credits)
  {
  }

  lemma CostReadsBackOrNot(p: Projection, now: Instant, cal: Calendar)
    requires ReadsBackAt(cal, now) && p.cost.Some? && p.cost.value.amount >= 0.0
    ensures ReadCost(RawCost(Some(Float(p.cost.value.amount)), p.cost.value.start, TimeOut(Some(now), cal)), cal) == KeptCost(p, now, cal)
  {
  }

  /** A fresh snapshot that was measured stays known unless its only measurement is gone. */
  lemma FreshUsage(p: Projection, cost: Option<Cost>, now: Instant)
    requires p.usage == if AnyWindow(p.windows, Known) || AnyBalance(p.balances) || p.cost.Some? then Known else Unknown
    requires cost.Some? ==> p.cost.Some?
    ensures var usage := Usage(now, Some(StateOut(p.usage)), p.windows, p.balances, cost, now);
            usage == p.usage <==> !(p.cost.Some? && cost.None? && !Measured(p.windows, p.balances, None))
  {
  }

  lemma FormIsSafe(p: Projection, now: Instant, cal: Calendar)
    requires ReadsBackAt(cal, now) && ResetsReadBack(p.windows, cal) && AllSettled(p.windows, Known, now)
    requires ReadBalances(BalancesOut(p.balances)) == p.balances
    requires p.cost.Some? ==> p.cost.value.amount >= 0.0
    requires !p.dollars ==> p.balances == NO_BALANCES && p.cost.None?
    ensures var cost := KeptCost(p, now, cal);
            Safe(ProjectionOut(p, now, cal), now, cal) ==
            Some(Snapshot(now, Usage(now, Some(StateOut(p.usage)), p.windows, p.balances, cost, now), p.windows, p.dollars, p.balances, cost))
  {
    hide StateOut, Usage;
    var out := ProjectionOut(p, now, cal);
    assert Timestamp(out.fetchedAt, false, cal) == Some(now);
    WindowsReadBack(p.windows, Known, now, cal);
    if p.cost.Some? { CostReadsBackOrNot(p, now, cal); }
    assert (out.currency == Some(Str("USD"))) == p.dollars;
  }

  /** Nothing about a projection but its settled windows, readable balances and priced cost matters to reading it back. */
  lemma FormReadsBack(p: Projection, now: Instant, cal: Calendar)
    requires ReadsBackAt(cal, now) && ResetsReadBack(p.windows, cal) && AllSettled(p.windows, Known, now)
    requires ReadBalances(BalancesOut(p.balances)) == p.balances
    requires p.cost.Some? ==> p.cost.value.amount >= 0.0
    requires !p.dollars ==> p.balances == NO_BALANCES && p.cost.None?
    requires p.usage == if AnyWindow(p.windows, Known) || AnyBalance(p.balances) || p.cost.Some? then Known else Unknown
    ensures ReadsBack(p, Safe(ProjectionOut(p, now, cal), now, cal), now, cal)
  {
    FormIsSafe(p, now, cal);
    FreshUsage(p, KeptCost(p, now, cal), now);
  }

  /**
   * Windows, balances and currency are kept; the cost is kept when its window
   * has a start; the usage state is kept exactly unless a cost without a start
   * was all that had been measured.
   */
  predicate ReadsBack(p: Projection, s: Option<Snapshot>, now: Instant, cal: Calendar) {
    && s.Some? && s.value.fetchedAt == now
    && s.value.windows == p.windows && s.value.balances == p.balances && s.value.dollars == p.dollars
    && s.value.cost == KeptCost(p, now, cal)
    && (s.value.usage == p.usage <==> !(p.cost.Some? && s.value.cost.None? && !Measured(p.windows, p.balances, None)))
  }

  /** What a provider's answer projects to survives the cache unchanged, at the moment it was fetched. */
  lemma ProjectionReadsBack(provider: Provider, payloads: Fields, now: Instant, cal: Calendar)
    requires Faithful(cal) && ReadsBackAt(cal, now)
    ensures var p := Project(provider, payloads, now, cal);
            ReadsBack(p, Safe(ProjectionOut(p, now, cal), now, cal), now, cal)
  {
    ProjectedWindowsSettle(provider, payloads, now, cal);
    ProjectedResetsReadBack(provider, payloads, now, cal);
    ProjectedBalancesReadBack(ProjectedCredits(provider, payloads));
    FormReadsBack(Project(provider, payloads, now, cal), now, cal);
  }
}
